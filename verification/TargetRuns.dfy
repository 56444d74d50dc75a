/** The epoch target's part in the chain of epochs: a replica that does what its target tells it takes
    the echo, ready, deliver and start steps of the chain, and no others. */
module TargetRuns {
  import opened Types
  import opened Quorums
  import opened Intervals
  import opened NewEpochConfigs
  import opened WriteAheadLog
  import opened ReplicaVotes
  import opened EpochChain
  import B = NewEpochBroadcast

  // ---------------------------------------------------------------- what the actions do

  type Batches = Digest -> seq<RequestAck>

  ghost function Perform(c: NetworkConfig, r: Replica, batch: Batches, a: B.Action): Replica
    requires c.checkpointInterval > 0
  {
    match a
    case PersistCarried(k) =>
      r.(log := EchoLog(c, r.log, k, StopAt(c, r), batch, |k.finalPreprepares|),
         preprepares := r.preprepares + CarriedVotes(k, |k.finalPreprepares|))
    case SendEcho(k) => r.(echoed := Some(k), echoes := r.echoes + {k})
    case PersistPrepared(k) =>
      r.(log := ReadyLog(r.log, k, |k.finalPreprepares|), anchors := r.anchors + {k},
         prepares := r.prepares + CarriedVotes(k, |k.finalPreprepares|))
    case SendReady(k) => r.(readies := r.readies + {k})
    case CommitLogged(_) => r.(delivered := r.delivered + Above(AfterChange(r.log, r.epoch), r.lastCheckpoint))
  }

  ghost function Performed(c: NetworkConfig, r: Replica, batch: Batches, out: seq<B.Action>): Replica
    requires c.checkpointInterval > 0
  {
    if out == [] then r
    else Perform(c, Performed(c, r, batch, out[..|out| - 1]), batch, out[|out| - 1])
  }

  function PhaseOf(state: B.TargetState): Phase {
    match state
    case Echoing => Echoed
    case Readying => Readied
    case Resuming => Delivered
    case Ready => Active
    case InProgress => Active
    case Done => Active
    case _ => Changing
  }

  function AsSet(network: Option<NewEpochConfig>): set<NewEpochConfig> {
    if network.Some? then {network.value} else {}
  }

  /** The replica after its target has gone to `t` with `out`. */
  ghost function After(c: NetworkConfig, r: Replica, batch: Batches, t: B.Target, out: seq<B.Action>): Replica
    requires c.checkpointInterval > 0
  {
    Performed(c, r, batch, out).(phase := PhaseOf(t.state), adopted := r.adopted + AsSet(t.network))
  }

  /** Target and replica are at the same point of epoch `e`. */
  ghost predicate Linked(c: NetworkConfig, e: nat, t: B.Target, r: Replica) {
    && c.checkpointInterval > 0 && r.epoch == e && e in r.changes && r.phase == PhaseOf(t.state)
    && (r.phase != Changing ==> r.echoed == t.logged) && AsSet(t.network) <= r.adopted
    && (t.logged.Some? <==> B.Rank(t.state) >= B.Rank(B.Echoing))
    && (t.network.Some? <==> B.Rank(t.state) > B.Rank(B.Readying))
    && (forall k :: k in t.echos || k in t.readies ==> k.config.number == e)
    && (t.leader.Some? ==> t.leader.value.config.number == e)
  }

  // ---------------------------------------------------------------- one pass is one step

  /** What the source checks before it echoes, and the intervals that the chain asks for. */
  ghost predicate MayEchoNow(c: NetworkConfig, r: Replica, k: NewEpochConfig)
    requires c.checkpointInterval > 0
  {
    && Aligned(k.startingCheckpoint.seqNo, c.checkpointInterval) && k.startingCheckpoint.seqNo <= r.lastCheckpoint
    && |k.finalPreprepares| <= Window(c) && SecondIntervalOpened(c, r.log, k)
  }

  ghost predicate AllOpened(c: NetworkConfig, r: Replica, k: NewEpochConfig)
    requires c.checkpointInterval > 0
  {
    forall s :: r.floor < s && k.startingCheckpoint.seqNo < s <= End(k) ==> Opened(r.log, c.checkpointInterval, s)
  }

  lemma PerformTwo(c: NetworkConfig, r: Replica, batch: Batches, a: B.Action, b: B.Action)
    requires c.checkpointInterval > 0
    ensures Performed(c, r, batch, [a]) == Perform(c, r, batch, a)
    ensures Performed(c, r, batch, [a, b]) == Perform(c, Perform(c, r, batch, a), batch, b)
  {
    assert [a][..0] == [] && [a, b][..1] == [a];
  }

  lemma EchoIsStep(c: NetworkConfig, env: B.Env, e: nat, t: B.Target, t': B.Target, out: seq<B.Action>, r: Replica,
                   batch: Batches)
    requires Linked(c, e, t, r) && B.Micro(c, env, t, t', out) && t.state == B.Fetching
    requires MayEchoNow(c, r, t.leader.value)
    ensures
      var r' := After(c, r, batch, t', out);
      Takes(c, r, r', Echo(t.leader.value, batch)) && Linked(c, e, t', r')
  {
    var k := t.leader.value;
    PerformTwo(c, r, batch, B.PersistCarried(k), B.SendEcho(k));
    hide EchoLog;
    hide SecondIntervalOpened;
    hide Performed;
    var r' := After(c, r, batch, t', out);
    assert r' == EchoedState(c, r, k, batch);
  }

  lemma ReadyIsStep(c: NetworkConfig, env: B.Env, e: nat, t: B.Target, t': B.Target, out: seq<B.Action>, r: Replica,
                    batch: Batches) returns (k: NewEpochConfig)
    requires Linked(c, e, t, r) && B.Micro(c, env, t, t', out) && t.state == B.Echoing
    requires forall k :: B.HasQuorum(c, t.echos, k) ==> AllOpened(c, r, k)
    ensures k in t.echos && B.HasQuorum(c, t.echos, k)
    ensures
      var r' := After(c, r, batch, t', out);
      Takes(c, r, r', ReadyByEchoes(k)) && Linked(c, e, t', r')
  {
    k :| k in t.echos && B.HasQuorum(c, t.echos, k)
         && t' == t.(state := B.Readying) && out == [B.PersistPrepared(k), B.SendReady(k)];
    PerformTwo(c, r, batch, B.PersistPrepared(k), B.SendReady(k));
    hide ReadyLog;
    hide Opened;
    hide Performed;
    var r' := After(c, r, batch, t', out);
    assert r' == ReadiedState(r, k);
  }

  /** A ready on f+1 readies is the step without P entries. */
  lemma JoinIsStep(c: NetworkConfig, e: nat, t: B.Target, k: NewEpochConfig, r: Replica, batch: Batches)
    requires Linked(c, e, t, r) && t.state == B.Echoing && k.config.number == e
    ensures
      var t', out := t.(state := B.Readying), [B.SendReady(k)];
      var r' := After(c, r, batch, t', out);
      Takes(c, r, r', ReadyByReadies(k)) && Linked(c, e, t', r')
  {
    PerformTwo(c, r, batch, B.SendReady(k), B.SendReady(k));
    hide Performed;
    var t', out := t.(state := B.Readying), [B.SendReady(k)];
    assert After(c, r, batch, t', out) == JoinedState(r, k);
  }

  lemma DeliverIsStep(c: NetworkConfig, env: B.Env, e: nat, t: B.Target, t': B.Target, out: seq<B.Action>, r: Replica,
                      batch: Batches)
    requires Linked(c, e, t, r) && B.Micro(c, env, t, t', out) && t.state == B.Readying
    ensures t'.network.Some? && B.HasQuorum(c, t.readies, t'.network.value)
    ensures
      var r' := After(c, r, batch, t', out);
      Takes(c, r, r', Deliver(t'.network.value)) && Linked(c, e, t', r')
  {
    PerformTwo(c, r, batch, B.CommitLogged(t.logged), B.CommitLogged(t.logged));
    hide AfterChange;
    hide Above;
    hide Performed;
    var r' := After(c, r, batch, t', out);
    assert r' == DeliveredState(r, t'.network.value);
  }

  lemma StartIsStep(c: NetworkConfig, env: B.Env, e: nat, t: B.Target, t': B.Target, out: seq<B.Action>, r: Replica,
                    batch: Batches)
    requires Linked(c, e, t, r) && B.Micro(c, env, t, t', out) && t.state == B.Resuming
    requires r.lastCheckpoint == End(t.logged.value)
    ensures
      var r' := After(c, r, batch, t', out);
      Takes(c, r, r', Start) && Linked(c, e, t', r')
  {
    var r' := After(c, r, batch, t', out);
    assert r.adopted + AsSet(t.network) == r.adopted;
    assert r' == StartedState(r);
  }

  /** The other passes leave the replica as it is. */
  lemma QuietIsNoStep(c: NetworkConfig, env: B.Env, e: nat, t: B.Target, t': B.Target, out: seq<B.Action>, r: Replica,
                      batch: Batches)
    requires Linked(c, e, t, r) && B.Micro(c, env, t, t', out)
    requires t.state.Prepending? || t.state.Pending? || t.state.Verifying? || t.state.Ready?
    ensures After(c, r, batch, t', out) == r && Linked(c, e, t', r)
  {
    assert r.adopted + AsSet(t.network) == r.adopted;
  }

  // ---------------------------------------------------------------- several passes are a path

  ghost predicate IsPath(c: NetworkConfig, faulty: set<NodeId>, path: seq<Network>) {
    path != [] && forall t :: 0 < t < |path| ==> NextAny(c, faulty, path[t - 1], path[t])
  }

  ghost predicate Leads(c: NetworkConfig, faulty: set<NodeId>, g: Network, g': Network) {
    exists path :: IsPath(c, faulty, path) && path[0] == g && path[|path| - 1] == g'
  }

  lemma LeadsNowhere(c: NetworkConfig, faulty: set<NodeId>, g: Network)
    ensures Leads(c, faulty, g, g)
  {
    assert IsPath(c, faulty, [g]);
  }

  lemma LeadsOn(c: NetworkConfig, faulty: set<NodeId>, g: Network, g1: Network, g2: Network)
    requires Leads(c, faulty, g, g1) && NextAny(c, faulty, g1, g2)
    ensures Leads(c, faulty, g, g2)
  {
    hide NextAny;
    var path :| IsPath(c, faulty, path) && path[0] == g && path[|path| - 1] == g1;
    var longer := path + [g2];
    forall t | 0 < t < |longer| ensures NextAny(c, faulty, longer[t - 1], longer[t]) {
      assert longer[t - 1] == path[t - 1];
    }
    assert IsPath(c, faulty, longer);
  }

  lemma LeadsFurther(c: NetworkConfig, faulty: set<NodeId>, g: Network, g1: Network, g2: Network)
    requires Leads(c, faulty, g, g1) && Leads(c, faulty, g1, g2)
    ensures Leads(c, faulty, g, g2)
  {
    hide NextAny;
    var p :| IsPath(c, faulty, p) && p[0] == g && p[|p| - 1] == g1;
    var q :| IsPath(c, faulty, q) && q[0] == g1 && q[|q| - 1] == g2;
    var path := p + q[1..];
    forall t | 0 < t < |path| ensures NextAny(c, faulty, path[t - 1], path[t]) {
      if t >= |p| {
        var n := t - |p| + 1;
        assert path[t] == q[n] && path[t - 1] == q[n - 1];
      }
    }
    assert IsPath(c, faulty, path);
  }

  lemma {:induction false} PerformedConcat(c: NetworkConfig, r: Replica, batch: Batches, a: seq<B.Action>, b: seq<B.Action>)
    requires c.checkpointInterval > 0
    ensures Performed(c, r, batch, a + b) == Performed(c, Performed(c, r, batch, a), batch, b)
    decreases |b|
  {
    hide Perform;
    if b == [] {
      assert a + b == a;
    } else {
      var init := b[..|b| - 1];
      PerformedConcat(c, r, batch, a, init);
      assert (a + b)[..|a + b| - 1] == a + init && (a + b)[|a + b| - 1] == b[|b| - 1];
    }
  }

  lemma PerformIgnores(c: NetworkConfig, r: Replica, batch: Batches, a: B.Action, phase: Phase, adopted: set<NewEpochConfig>)
    requires c.checkpointInterval > 0
    ensures Perform(c, r.(phase := phase, adopted := adopted), batch, a) ==
            Perform(c, r, batch, a).(phase := phase, adopted := adopted)
    ensures var r' := Perform(c, r, batch, a); r'.lastCheckpoint == r.lastCheckpoint && r'.adopted == r.adopted
  {
    hide EchoLog;
    hide ReadyLog;
    hide CarriedVotes;
    hide AfterChange;
    hide Above;
  }

  /** The actions do not read the phase or what was delivered. */
  lemma {:induction false} PerformedIgnores(c: NetworkConfig, r: Replica, batch: Batches, out: seq<B.Action>, phase: Phase,
                                            adopted: set<NewEpochConfig>)
    requires c.checkpointInterval > 0
    ensures Performed(c, r.(phase := phase, adopted := adopted), batch, out) ==
            Performed(c, r, batch, out).(phase := phase, adopted := adopted)
    ensures var r' := Performed(c, r, batch, out); r'.lastCheckpoint == r.lastCheckpoint && r'.adopted == r.adopted
  {
    hide Perform;
    if out != [] {
      var init, last := out[..|out| - 1], out[|out| - 1];
      PerformedIgnores(c, r, batch, init, phase, adopted);
      PerformIgnores(c, Performed(c, r, batch, init), batch, last, phase, adopted);
    }
  }

  lemma AfterConcat(c: NetworkConfig, r: Replica, batch: Batches, t1: B.Target, o1: seq<B.Action>, t2: B.Target,
                    o2: seq<B.Action>)
    requires c.checkpointInterval > 0 && (t1.network.Some? ==> t2.network == t1.network)
    ensures After(c, After(c, r, batch, t1, o1), batch, t2, o2) == After(c, r, batch, t2, o1 + o2)
    ensures After(c, r, batch, t1, o1).lastCheckpoint == r.lastCheckpoint
  {
    hide Performed;
    var r1 := Performed(c, r, batch, o1);
    var adopted := r.adopted + AsSet(t1.network);
    PerformedConcat(c, r, batch, o1, o2);
    PerformedIgnores(c, r, batch, o1, r.phase, r.adopted);
    PerformedIgnores(c, r1, batch, o2, PhaseOf(t1.state), adopted);
    assert adopted + AsSet(t2.network) == r.adopted + AsSet(t2.network);
  }

  /** What the target has logged or is about to. */
  function Own(t: B.Target): Option<NewEpochConfig> {
    if B.Rank(t.state) < B.Rank(B.Echoing) then t.leader else t.logged
  }

  ghost function WhenEchoed(c: NetworkConfig, t: B.Target, r: Replica, batch: Batches): Replica
    requires c.checkpointInterval > 0
  {
    if B.Rank(t.state) < B.Rank(B.Echoing) && t.leader.Some? then EchoedState(c, r, t.leader.value, batch) else r
  }

  /** What the answers of other components stand for: NewEpoch messages come from the leader,
      verification accepts what genuine epoch changes justify, a configuration has been fetched only if it
      may be echoed, and the epoch resumes when all it carried over is checkpointed. */
  ghost predicate Sound(c: NetworkConfig, faulty: set<NodeId>, g: Network, i: NodeId, t: B.Target, env: B.Env,
                        batch: Batches)
    requires i in g && c.checkpointInterval > 0
  {
    && (t.leader.Some? ==> FromLeader(c, faulty, g, t.leader.value))
    && (t.leader.Some? && env.verified && B.Rank(t.state) <= B.Rank(B.Verifying) ==> Justified(c, faulty, g, t.leader.value))
    && (t.leader.Some? && env.fetched && B.Rank(t.state) <= B.Rank(B.Fetching) ==> MayEchoNow(c, g[i], t.leader.value))
    && (t.leader.Some? && env.fetched && t.state == B.Fetching && t.leader != t.verified ==>
          Replaceable(c, faulty, g, i, t.leader.value))
    && (env.resumable && Own(t).Some? ==> g[i].lastCheckpoint == End(Own(t).value))
    && (B.Rank(t.state) <= B.Rank(B.Echoing) ==>
          forall k :: B.HasQuorum(c, t.echos, k) ==> AllOpened(c, WhenEchoed(c, t, g[i], batch), k))
  }

  ghost predicate ReadyQuorum(c: NetworkConfig, faulty: set<NodeId>, g: Network, k: NewEpochConfig) {
    exists q :: IsQuorum(c, q) && ReadiedBy(c, faulty, g, k, q)
  }

  /** The tallies count what was said, and what was verified is justified. */
  ghost predicate Vouched(c: NetworkConfig, faulty: set<NodeId>, g: Network, t: B.Target) {
    && (forall k :: B.HasQuorum(c, t.echos, k) ==> EchoBacked(c, faulty, g, k))
    && (forall k :: B.HasQuorum(c, t.readies, k) ==> ReadyQuorum(c, faulty, g, k))
    && (B.Rank(t.state) >= B.Rank(B.Fetching) ==> t.verified.Some? && Justified(c, faulty, g, t.verified.value))
  }

  lemma VouchedGrows(c: NetworkConfig, faulty: set<NodeId>, g: Network, g': Network, t: B.Target)
    requires Vouched(c, faulty, g, t) && NetworkGrows(g, g')
    ensures Vouched(c, faulty, g', t)
  {
    hide B.HasQuorum;
    hide Justified;
    if B.Rank(t.state) >= B.Rank(B.Fetching) {
      StillJustified(c, faulty, g, g', t.verified.value);
    }
    forall k | B.HasQuorum(c, t.echos, k) ensures EchoBacked(c, faulty, g', k) {
      var q :| EchoedByQuorum(c, faulty, g, k, q);
      assert EchoedByQuorum(c, faulty, g', k, q);
    }
    forall k | B.HasQuorum(c, t.readies, k) ensures ReadyQuorum(c, faulty, g', k) {
      var q :| IsQuorum(c, q) && ReadiedBy(c, faulty, g, k, q);
      assert ReadiedBy(c, faulty, g', k, q);
    }
  }

  /** The network `g` can go on so that node `i` is `r`, which is where its target is. */
  ghost predicate Refined(c: NetworkConfig, faulty: set<NodeId>, e: nat, g: Network, i: NodeId, r: Replica, t: B.Target)
    requires i in g
  {
    && Linked(c, e, t, r) && Grows(g[i], r) && Leads(c, faulty, g, g[i := r])
    && Vouched(c, faulty, g[i := r], t)
  }

  lemma EchoRefines(c: NetworkConfig, faulty: set<NodeId>, e: nat, g: Network, i: NodeId, env: B.Env, t: B.Target,
                    t': B.Target, out: seq<B.Action>, batch: Batches)
    requires i in g && Linked(c, e, t, g[i]) && Vouched(c, faulty, g, t) && B.Micro(c, env, t, t', out)
    requires Sound(c, faulty, g, i, t, env, batch) && t.state == B.Fetching
    ensures Refined(c, faulty, e, g, i, After(c, g[i], batch, t', out), t')
  {
    var r' := After(c, g[i], batch, t', out);
    var g' := g[i := r'];
    hide Justified;
    hide After;
    hide Linked;
    hide AllOpened;
    hide MayEchoNow;
    hide Leads;
    hide FromLeader;
    hide Replaceable;
    hide Takes;
    hide Grows;
    hide WhenEchoed;
    hide B.HasQuorum;
    EchoIsStep(c, env, e, t, t', out, g[i], batch);
    StepTaken(c, faulty, g, i, r', Echo(t.leader.value, batch));
    hide NetworkGrows;
    VouchedGrows(c, faulty, g, g', t');
  }

  lemma ReadyRefines(c: NetworkConfig, faulty: set<NodeId>, e: nat, g: Network, i: NodeId, env: B.Env, t: B.Target,
                     t': B.Target, out: seq<B.Action>, batch: Batches)
    requires i in g && Linked(c, e, t, g[i]) && Vouched(c, faulty, g, t) && B.Micro(c, env, t, t', out)
    requires Sound(c, faulty, g, i, t, env, batch) && t.state == B.Echoing
    ensures Refined(c, faulty, e, g, i, After(c, g[i], batch, t', out), t')
  {
    var r' := After(c, g[i], batch, t', out);
    var g' := g[i := r'];
    hide Justified;
    hide After;
    hide Linked;
    hide AllOpened;
    hide MayEchoNow;
    hide Leads;
    hide FromLeader;
    hide Replaceable;
    hide Takes;
    hide Grows;
    hide WhenEchoed;
    hide B.HasQuorum;
    assert WhenEchoed(c, t, g[i], batch) == g[i] by {
      AlreadyEchoed(c, t, g[i], batch);
    }
    var k := ReadyIsStep(c, env, e, t, t', out, g[i], batch);
    StepTaken(c, faulty, g, i, r', ReadyByEchoes(k));
    hide NetworkGrows;
    VouchedGrows(c, faulty, g, g', t');
  }

  lemma DeliverRefines(c: NetworkConfig, faulty: set<NodeId>, e: nat, g: Network, i: NodeId, env: B.Env, t: B.Target,
                       t': B.Target, out: seq<B.Action>, batch: Batches)
    requires i in g && Linked(c, e, t, g[i]) && Vouched(c, faulty, g, t) && B.Micro(c, env, t, t', out)
    requires Sound(c, faulty, g, i, t, env, batch) && t.state == B.Readying
    ensures Refined(c, faulty, e, g, i, After(c, g[i], batch, t', out), t')
  {
    var r' := After(c, g[i], batch, t', out);
    var g' := g[i := r'];
    hide Justified;
    hide After;
    hide Linked;
    hide AllOpened;
    hide MayEchoNow;
    hide Leads;
    hide FromLeader;
    hide Replaceable;
    hide Takes;
    hide Grows;
    hide WhenEchoed;
    hide B.HasQuorum;
    DeliverIsStep(c, env, e, t, t', out, g[i], batch);
    StepTaken(c, faulty, g, i, r', Deliver(t'.network.value));
    hide NetworkGrows;
    VouchedGrows(c, faulty, g, g', t');
  }

  lemma StartRefines(c: NetworkConfig, faulty: set<NodeId>, e: nat, g: Network, i: NodeId, env: B.Env, t: B.Target,
                     t': B.Target, out: seq<B.Action>, batch: Batches)
    requires i in g && Linked(c, e, t, g[i]) && Vouched(c, faulty, g, t) && B.Micro(c, env, t, t', out)
    requires Sound(c, faulty, g, i, t, env, batch) && t.state == B.Resuming
    ensures Refined(c, faulty, e, g, i, After(c, g[i], batch, t', out), t')
  {
    var r' := After(c, g[i], batch, t', out);
    var g' := g[i := r'];
    hide Justified;
    hide After;
    hide Linked;
    hide AllOpened;
    hide MayEchoNow;
    hide Leads;
    hide FromLeader;
    hide Replaceable;
    hide Takes;
    hide Grows;
    hide WhenEchoed;
    hide B.HasQuorum;
    OwnLogged(c, e, t, g[i]);
    StartIsStep(c, env, e, t, t', out, g[i], batch);
    StepTaken(c, faulty, g, i, r', Start);
    hide NetworkGrows;
    VouchedGrows(c, faulty, g, g', t');
  }

  lemma QuietRefines(c: NetworkConfig, faulty: set<NodeId>, e: nat, g: Network, i: NodeId, env: B.Env, t: B.Target,
                     t': B.Target, out: seq<B.Action>, batch: Batches)
    requires i in g && Linked(c, e, t, g[i]) && Vouched(c, faulty, g, t) && B.Micro(c, env, t, t', out)
    requires Sound(c, faulty, g, i, t, env, batch)
    requires t.state.Prepending? || t.state.Pending? || t.state.Verifying? || t.state.Ready?
    ensures Refined(c, faulty, e, g, i, After(c, g[i], batch, t', out), t')
  {
    var r' := After(c, g[i], batch, t', out);
    var g' := g[i := r'];
    hide Justified;
    hide After;
    hide Linked;
    hide AllOpened;
    hide MayEchoNow;
    hide Leads;
    hide FromLeader;
    hide Replaceable;
    hide Takes;
    hide Grows;
    hide WhenEchoed;
    hide B.HasQuorum;
    QuietIsNoStep(c, env, e, t, t', out, g[i], batch);
    assert g' == g;
    LeadsNowhere(c, faulty, g);
    GrowsSelf(g[i]);
  }

  lemma AlreadyEchoed(c: NetworkConfig, t: B.Target, r: Replica, batch: Batches)
    requires c.checkpointInterval > 0 && t.state == B.Echoing
    ensures WhenEchoed(c, t, r, batch) == r
  {
  }

  lemma OwnLogged(c: NetworkConfig, e: nat, t: B.Target, r: Replica)
    requires Linked(c, e, t, r) && t.state == B.Resuming
    ensures Own(t).Some? && Own(t) == t.logged
  {
  }

  /** One pass of the target of node `i` takes the chain at most one step further. */
  lemma MicroRefines(c: NetworkConfig, faulty: set<NodeId>, e: nat, g: Network, i: NodeId, env: B.Env, t: B.Target,
                     t': B.Target, out: seq<B.Action>, batch: Batches)
    requires i in g && Linked(c, e, t, g[i]) && Vouched(c, faulty, g, t) && B.Micro(c, env, t, t', out)
    requires Sound(c, faulty, g, i, t, env, batch)
    ensures Refined(c, faulty, e, g, i, After(c, g[i], batch, t', out), t')
  {
    hide Linked;
    hide Vouched;
    hide Sound;
    hide After;
    hide Refined;
    if t.state == B.Fetching {
      EchoRefines(c, faulty, e, g, i, env, t, t', out, batch);
    } else if t.state == B.Echoing {
      ReadyRefines(c, faulty, e, g, i, env, t, t', out, batch);
    } else if t.state == B.Readying {
      DeliverRefines(c, faulty, e, g, i, env, t, t', out, batch);
    } else if t.state == B.Resuming {
      StartRefines(c, faulty, e, g, i, env, t, t', out, batch);
    } else {
      QuietRefines(c, faulty, e, g, i, env, t, t', out, batch);
    }
  }

  lemma GrowsSelf(r: Replica)
    ensures Grows(r, r)
  {
  }

  lemma PlainGrows(c: NetworkConfig, r: Replica, r': Replica, step: Step)
    requires Takes(c, r, r', step) && !step.Begin?
    ensures Grows(r, r')
  {
    hide EchoLog;
    hide ReadyLog;
    hide CarriedVotes;
    hide Opened;
    hide AfterChange;
    hide Above;
    hide SecondIntervalOpened;
    hide Truncated;
  }

  lemma StepTaken(c: NetworkConfig, faulty: set<NodeId>, g: Network, i: NodeId, r': Replica, step: Step)
    requires i in g && Takes(c, g[i], r', step) && Allowed(c, faulty, g, i, step) && !step.Begin?
    ensures Grows(g[i], r') && NetworkGrows(g, g[i := r']) && Leads(c, faulty, g, g[i := r'])
  {
    hide Takes;
    hide Allowed;
    PlainGrows(c, g[i], r', step);
    var g' := g[i := r'];
    assert Next(c, faulty, g, g', i, step);
    LeadsNowhere(c, faulty, g);
    LeadsOn(c, faulty, g, g, g');
    hide Grows;
    GrowsSelf(g[i]);
    forall j | j in g ensures Grows(g[j], g'[j]) {
      GrowsSelf(g[j]);
    }
  }

  lemma StillFromLeader(c: NetworkConfig, faulty: set<NodeId>, g: Network, g': Network, k: NewEpochConfig)
    requires NetworkGrows(g, g') && FromLeader(c, faulty, g, k)
    ensures FromLeader(c, faulty, g', k)
  {
  }

  lemma EchoedWhenEchoed(c: NetworkConfig, env: B.Env, e: nat, t: B.Target, t': B.Target, out: seq<B.Action>, r: Replica,
                         batch: Batches)
    requires Linked(c, e, t, r) && B.Micro(c, env, t, t', out) && t.state == B.Fetching
    ensures
      var r' := After(c, r, batch, t', out);
      WhenEchoed(c, t', r', batch) == WhenEchoed(c, t, r, batch) && r'.lastCheckpoint == r.lastCheckpoint
  {
    var k := t.leader.value;
    PerformTwo(c, r, batch, B.PersistCarried(k), B.SendEcho(k));
    hide EchoLog;
    hide Performed;
    hide CarriedVotes;
    assert After(c, r, batch, t', out) == EchoedState(c, r, k, batch);
  }

  lemma CheckpointKept(c: NetworkConfig, r: Replica, batch: Batches, t: B.Target, out: seq<B.Action>)
    requires c.checkpointInterval > 0
    ensures After(c, r, batch, t, out).lastCheckpoint == r.lastCheckpoint
  {
    PerformedIgnores(c, r, batch, out, r.phase, r.adopted);
  }

  lemma EchoKeepsSound(c: NetworkConfig, faulty: set<NodeId>, e: nat, g: Network, i: NodeId, env: B.Env, t: B.Target,
                       t': B.Target, out: seq<B.Action>, batch: Batches)
    requires i in g && Linked(c, e, t, g[i]) && B.Micro(c, env, t, t', out)
    requires Sound(c, faulty, g, i, t, env, batch)
    requires NetworkGrows(g, g[i := After(c, g[i], batch, t', out)])
    requires t.state == B.Fetching
    ensures Sound(c, faulty, g[i := After(c, g[i], batch, t', out)], i, t', env, batch)
  {
    var g' := g[i := After(c, g[i], batch, t', out)];
    StillFromLeader(c, faulty, g, g', t.leader.value);
    EchoedWhenEchoed(c, env, e, t, t', out, g[i], batch);
    hide Linked;
    hide After;
    hide NetworkGrows;
    hide FromLeader;
    hide Justified;
    hide MayEchoNow;
    hide Replaceable;
    hide AllOpened;
    hide WhenEchoed;
    hide B.HasQuorum;
  }

  lemma LaterFrame(c: NetworkConfig, env: B.Env, t: B.Target, t': B.Target, out: seq<B.Action>)
    requires B.Micro(c, env, t, t', out) && B.Rank(t.state) >= B.Rank(B.Echoing)
    ensures t'.leader == t.leader && t'.logged == t.logged && B.Rank(t'.state) > B.Rank(t.state)
  {
    hide B.HasQuorum;
  }

  lemma LaterKeepsSound(c: NetworkConfig, faulty: set<NodeId>, e: nat, g: Network, i: NodeId, env: B.Env, t: B.Target,
                        t': B.Target, out: seq<B.Action>, batch: Batches)
    requires i in g && Linked(c, e, t, g[i]) && B.Micro(c, env, t, t', out)
    requires Sound(c, faulty, g, i, t, env, batch)
    requires NetworkGrows(g, g[i := After(c, g[i], batch, t', out)])
    requires B.Rank(t.state) >= B.Rank(B.Echoing)
    ensures Sound(c, faulty, g[i := After(c, g[i], batch, t', out)], i, t', env, batch)
  {
    var g' := g[i := After(c, g[i], batch, t', out)];
    CheckpointKept(c, g[i], batch, t', out);
    LaterFrame(c, env, t, t', out);
    hide B.Micro;
    if t.leader.Some? {
      StillFromLeader(c, faulty, g, g', t.leader.value);
    }
    hide Linked;
    hide After;
    hide NetworkGrows;
    hide FromLeader;
    hide Justified;
    hide MayEchoNow;
    hide Replaceable;
    hide AllOpened;
    hide WhenEchoed;
    hide B.HasQuorum;
  }

  lemma QuietKeepsSound(c: NetworkConfig, faulty: set<NodeId>, e: nat, g: Network, i: NodeId, env: B.Env, t: B.Target,
                        t': B.Target, out: seq<B.Action>, batch: Batches)
    requires i in g && Linked(c, e, t, g[i]) && B.Micro(c, env, t, t', out)
    requires Sound(c, faulty, g, i, t, env, batch)
    requires NetworkGrows(g, g[i := After(c, g[i], batch, t', out)])
    requires t.state.Prepending? || t.state.Pending? || t.state.Verifying?
    ensures Sound(c, faulty, g[i := After(c, g[i], batch, t', out)], i, t', env, batch)
  {
    QuietIsNoStep(c, env, e, t, t', out, g[i], batch);
    assert g[i := g[i]] == g;
    assert WhenEchoed(c, t', g[i], batch) == WhenEchoed(c, t, g[i], batch);
    hide Linked;
    hide After;
    hide NetworkGrows;
    hide FromLeader;
    hide Justified;
    hide MayEchoNow;
    hide Replaceable;
    hide AllOpened;
    hide WhenEchoed;
    hide B.HasQuorum;
  }

  /** What the answers stand for stays so from pass to pass. */
  lemma SoundKept(c: NetworkConfig, faulty: set<NodeId>, e: nat, g: Network, i: NodeId, env: B.Env, t: B.Target,
                  t': B.Target, out: seq<B.Action>, batch: Batches)
    requires i in g && Linked(c, e, t, g[i]) && B.Micro(c, env, t, t', out)
    requires Sound(c, faulty, g, i, t, env, batch)
    requires NetworkGrows(g, g[i := After(c, g[i], batch, t', out)])
    ensures Sound(c, faulty, g[i := After(c, g[i], batch, t', out)], i, t', env, batch)
  {
    hide Linked;
    hide Sound;
    hide After;
    hide NetworkGrows;
    if t.state == B.Fetching {
      EchoKeepsSound(c, faulty, e, g, i, env, t, t', out, batch);
    } else if B.Rank(t.state) >= B.Rank(B.Echoing) {
      LaterKeepsSound(c, faulty, e, g, i, env, t, t', out, batch);
    } else {
      QuietKeepsSound(c, faulty, e, g, i, env, t, t', out, batch);
    }
  }

  lemma AfterNothing(c: NetworkConfig, e: nat, t: B.Target, r: Replica, batch: Batches)
    requires Linked(c, e, t, r)
    ensures After(c, r, batch, t, []) == r
  {
    assert r.adopted + AsSet(t.network) == r.adopted;
  }

  lemma OneGrows(g: Network, i: NodeId, r: Replica)
    requires i in g && Grows(g[i], r)
    ensures NetworkGrows(g, g[i := r])
  {
    hide Grows;
    forall j | j in g ensures Grows(g[j], g[i := r][j]) {
      GrowsSelf(g[j]);
    }
  }

  lemma GrowsFurther(r: Replica, r1: Replica, r2: Replica)
    requires Grows(r, r1) && Grows(r1, r2)
    ensures Grows(r, r2)
  {
  }

  lemma NetworkStays(c: NetworkConfig, env: B.Env, e: nat, t: B.Target, t': B.Target, out: seq<B.Action>, r: Replica)
    requires Linked(c, e, t, r) && B.Micro(c, env, t, t', out)
    ensures t.network.Some? ==> t'.network == t.network
  {
  }

  /** However far an event lets the target of node `i` advance, the chain can follow. */
  lemma {:induction false} ReachesRefines(c: NetworkConfig, faulty: set<NodeId>, e: nat, g: Network, i: NodeId, env: B.Env,
                                          t: B.Target, t': B.Target, out: seq<B.Action>, batch: Batches)
    requires i in g && Linked(c, e, t, g[i]) && Vouched(c, faulty, g, t) && B.Reaches(c, env, t, t', out)
    requires Sound(c, faulty, g, i, t, env, batch)
    ensures
      var r' := After(c, g[i], batch, t', out);
      Refined(c, faulty, e, g, i, r', t') && Sound(c, faulty, g[i := r'], i, t', env, batch)
    decreases B.Rank(t'.state)
  {
    hide B.Micro;
    hide B.Rank;
    hide Linked;
    hide Vouched;
    hide Sound;
    hide After;
    hide Grows;
    hide NetworkGrows;
    hide Leads;
    Interval(c, e, t, g[i]);
    var r' := After(c, g[i], batch, t', out);
    if t' == t && out == [] {
      AfterNothing(c, e, t, g[i], batch);
      assert g[i := r'] == g;
      GrowsSelf(g[i]);
      LeadsNowhere(c, faulty, g);
    } else {
      var t1: B.Target, o1: seq<B.Action>, o2: seq<B.Action> :|
        B.Rank(t1.state) < B.Rank(t'.state) && B.Reaches(c, env, t, t1, o1) && B.Micro(c, env, t1, t', o2) && out == o1 + o2;
      ReachesRefines(c, faulty, e, g, i, env, t, t1, o1, batch);
      var r1 := After(c, g[i], batch, t1, o1);
      var g1 := g[i := r1];
      MicroRefines(c, faulty, e, g1, i, env, t1, t', o2, batch);
      NetworkStays(c, env, e, t1, t', o2, r1);
      AfterConcat(c, g[i], batch, t1, o1, t', o2);
      assert g1[i := r'] == g[i := r'];
      GrowsFurther(g[i], r1, r');
      LeadsFurther(c, faulty, g, g1, g[i := r']);
      OneGrows(g1, i, r');
      SoundKept(c, faulty, e, g1, i, env, t1, t', o2, batch);
    }
  }

  lemma Interval(c: NetworkConfig, e: nat, t: B.Target, r: Replica)
    requires Linked(c, e, t, r)
    ensures c.checkpointInterval > 0
  {
  }

  // ---------------------------------------------------------------- events

  /** The target once the event is recorded. */
  function Recorded(t: B.Target, event: B.Event): B.Target {
    match event
    case GotEcho(source, k) => t.(echos := B.Record(t.echos, k, source))
    case GotReady(source, k) => t.(readies := B.Record(t.readies, k, source))
    case GotNewEpoch(k) => t.(leader := Some(k))
    case Nudge => t
  }

  /** Messages go to the target of their epoch. */
  predicate OfEpoch(event: B.Event, e: nat) {
    !event.Nudge? ==> event.config.config.number == e
  }

  lemma RecordedLinked(c: NetworkConfig, e: nat, t: B.Target, r: Replica, event: B.Event)
    requires Linked(c, e, t, r) && OfEpoch(event, e)
    ensures Linked(c, e, Recorded(t, event), r)
  {
  }

  /** A ready beyond f of them is from a correct node. */
  ghost predicate ReadyVouched(c: NetworkConfig, faulty: set<NodeId>, g: Network, t: B.Target) {
    forall k :: |B.Votes(t.readies, k)| >= SomeCorrectQuorum(c) ==>
                  exists q :: |q| >= SomeCorrectQuorum(c) && ReadiedBy(c, faulty, g, k, q)
  }

  /** Handling an event, with all passes that it makes possible, is a path of the chain. */
  lemma EventRefines(c: NetworkConfig, faulty: set<NodeId>, e: nat, g: Network, i: NodeId, env: B.Env, t: B.Target,
                     t': B.Target, out: seq<B.Action>, event: B.Event, batch: Batches)
    requires i in g && Linked(c, e, t, g[i]) && OfEpoch(event, e) && B.Handles(c, env, t, t', out, event)
    requires
      var t1 := Recorded(t, event);
      Vouched(c, faulty, g, t1) && ReadyVouched(c, faulty, g, t1) && Sound(c, faulty, g, i, t1, env, batch)
    requires B.Rank(t.state) > B.Rank(B.Readying) ==> Vouched(c, faulty, g, t)
    ensures Refined(c, faulty, e, g, i, After(c, g[i], batch, t', out), t')
  {
    var t1 := Recorded(t, event);
    RecordedLinked(c, e, t, g[i], event);
    hide B.Reaches;
    hide B.Enabled;
    hide Linked;
    hide Vouched;
    hide Sound;
    hide After;
    hide Refined;
    if B.Reaches(c, env, t1, t', out) {
      ReachesRefines(c, faulty, e, g, i, env, t1, t', out, batch);
    } else {
      assert event.GotReady?;
      if t' == t && out == [] {
        StaysRefined(c, faulty, e, g, i, t, batch);
      } else if t' == t1 && out == [] {
        StaysRefined(c, faulty, e, g, i, t1, batch);
      } else {
        JoinRefines(c, faulty, e, g, i, t1, event.config, batch);
      }
    }
  }

  lemma StaysRefined(c: NetworkConfig, faulty: set<NodeId>, e: nat, g: Network, i: NodeId, t: B.Target, batch: Batches)
    requires i in g && Linked(c, e, t, g[i]) && Vouched(c, faulty, g, t)
    ensures Refined(c, faulty, e, g, i, After(c, g[i], batch, t, []), t)
  {
    hide Linked;
    hide Vouched;
    hide After;
    hide Grows;
    hide Leads;
    Interval(c, e, t, g[i]);
    AfterNothing(c, e, t, g[i], batch);
    assert g[i := g[i]] == g;
    GrowsSelf(g[i]);
    LeadsNowhere(c, faulty, g);
  }

  lemma JoinRefines(c: NetworkConfig, faulty: set<NodeId>, e: nat, g: Network, i: NodeId, t: B.Target, k: NewEpochConfig,
                    batch: Batches)
    requires i in g && Linked(c, e, t, g[i]) && Vouched(c, faulty, g, t) && ReadyVouched(c, faulty, g, t)
    requires t.state == B.Echoing && k.config.number == e && |B.Votes(t.readies, k)| >= SomeCorrectQuorum(c)
    ensures
      var t' := t.(state := B.Readying);
      Refined(c, faulty, e, g, i, After(c, g[i], batch, t', [B.SendReady(k)]), t')
  {
    var t' := t.(state := B.Readying);
    var r' := After(c, g[i], batch, t', [B.SendReady(k)]);
    JoinIsStep(c, e, t, k, g[i], batch);
    hide After;
    hide Linked;
    hide Takes;
    hide Leads;
    hide Grows;
    hide Justified;
    hide B.HasQuorum;
    StepTaken(c, faulty, g, i, r', ReadyByReadies(k));
    hide NetworkGrows;
    VouchedGrows(c, faulty, g, g[i := r'], t');
  }

  // ---------------------------------------------------------------- runs

  /** The targets of one epoch and the replicas. */
  datatype World = World(targets: B.Network, chain: Network)

  /** A target handles an event, and its replica does what it says. */
  ghost predicate TargetMove(c: NetworkConfig, faulty: set<NodeId>, e: nat, w: World, w': World, i: NodeId, env: B.Env,
                             event: B.Event, out: seq<B.Action>, batch: Batches)
  {
    && i in w.chain && w.chain[i].epoch == e && c.checkpointInterval > 0 && OfEpoch(event, e)
    && B.Next(c, faulty, w.targets, w'.targets, i, env, event, out)
    && Sound(c, faulty, w.chain, i, Recorded(w.targets[i].target, event), env, batch)
    && w'.chain == w.chain[i := After(c, w.chain[i], batch, w'.targets[i].target, out)]
  }

  predicate ByTarget(step: Step) {
    step.Echo? || step.ReadyByEchoes? || step.ReadyByReadies? || step.Deliver? || step.Start?
  }

  /** Anything else that a replica does, and whatever it does in other epochs. */
  ghost predicate ChainMove(c: NetworkConfig, faulty: set<NodeId>, e: nat, w: World, w': World, i: NodeId, step: Step) {
    && Next(c, faulty, w.chain, w'.chain, i, step) && w'.targets == w.targets
    && (w.chain[i].epoch == e ==> !ByTarget(step))
  }

  ghost predicate Moves(c: NetworkConfig, faulty: set<NodeId>, e: nat, w: World, w': World) {
    || (exists i, env, event, out, batch :: TargetMove(c, faulty, e, w, w', i, env, event, out, batch))
    || (exists i, step :: ChainMove(c, faulty, e, w, w', i, step))
  }

  /** It begins before anyone has begun the epoch. */
  ghost predicate IsWorldRun(c: NetworkConfig, faulty: set<NodeId>, e: nat, run: seq<World>) {
    && run != [] && FaultBound(c, faulty) && Inv(c, faulty, run[0].chain)
    && run[0].targets.Keys == run[0].chain.Keys
    && (forall i :: i in run[0].targets ==> run[0].targets[i] == B.Node(B.Fresh(), {}, {}))
    && (forall i :: i in run[0].chain ==> run[0].chain[i].epoch < e)
    && forall t :: 0 < t < |run| ==> Moves(c, faulty, e, run[t - 1], run[t])
  }

  ghost predicate NodeLinked(c: NetworkConfig, faulty: set<NodeId>, e: nat, n: B.Node, g: Network, i: NodeId)
    requires i in g
  {
    && n.echoed <= g[i].echoes && n.readied <= g[i].readies
    && (g[i].epoch < e ==> n.target == B.Fresh())
    && (g[i].epoch == e ==> Linked(c, e, n.target, g[i]) && VerifiedRight(c, faulty, g, n.target))
  }

  ghost predicate VerifiedRight(c: NetworkConfig, faulty: set<NodeId>, g: Network, t: B.Target) {
    B.Rank(t.state) >= B.Rank(B.Fetching) ==> t.verified.Some? && Justified(c, faulty, g, t.verified.value)
  }

  ghost predicate WorldInv(c: NetworkConfig, faulty: set<NodeId>, e: nat, w: World) {
    && Inv(c, faulty, w.chain) && B.Inv(c, faulty, w.targets) && w.targets.Keys == w.chain.Keys
    && c.checkpointInterval > 0
    && forall i :: i in w.chain ==> NodeLinked(c, faulty, e, w.targets[i], w.chain, i)
  }

  // ---------------------------------------------------------------- runs keep the link

  lemma {:induction false} PerformedSays(c: NetworkConfig, r: Replica, batch: Batches, out: seq<B.Action>)
    requires c.checkpointInterval > 0
    ensures
      var r' := Performed(c, r, batch, out);
      B.EchoesIn(out) <= r'.echoes && B.ReadiesIn(out) <= r'.readies && r.echoes <= r'.echoes && r.readies <= r'.readies
  {
    hide EchoLog;
    hide ReadyLog;
    hide CarriedVotes;
    hide AfterChange;
    hide Above;
    if out != [] {
      var init, last := out[..|out| - 1], out[|out| - 1];
      PerformedSays(c, r, batch, init);
      assert out == init + [last];
      B.BroadcastInConcat(init, [last]);
    }
  }

  ghost predicate SaidInChain(b: B.Network, g: Network) {
    b.Keys == g.Keys && forall j :: j in b ==> b[j].echoed <= g[j].echoes && b[j].readied <= g[j].readies
  }

  lemma EchoesVouch(c: NetworkConfig, faulty: set<NodeId>, b: B.Network, g: Network, tally: B.Tally, k: NewEpochConfig)
    requires SaidInChain(b, g) && B.TruthfulEchoes(c, faulty, b, tally) && B.HasQuorum(c, tally, k)
    ensures EchoBacked(c, faulty, g, k)
  {
    assert k in tally;
    assert EchoedByQuorum(c, faulty, g, k, tally[k]);
  }

  lemma ReadiesVouch(c: NetworkConfig, faulty: set<NodeId>, b: B.Network, g: Network, tally: B.Tally, k: NewEpochConfig)
    requires SaidInChain(b, g) && B.TruthfulReadies(c, faulty, b, tally)
    ensures ReadiedBy(c, faulty, g, k, B.Votes(tally, k))
    ensures B.HasQuorum(c, tally, k) ==> ReadyQuorum(c, faulty, g, k)
  {
    assert ReadiedBy(c, faulty, g, k, B.Votes(tally, k));
    if B.HasQuorum(c, tally, k) {
      assert IsQuorum(c, B.Votes(tally, k));
    }
  }

  /** Truthful tallies count what the replicas said. */
  lemma TalliesVouch(c: NetworkConfig, faulty: set<NodeId>, b: B.Network, g: Network, t: B.Target)
    requires SaidInChain(b, g) && B.TruthfulEchoes(c, faulty, b, t.echos) && B.TruthfulReadies(c, faulty, b, t.readies)
    requires VerifiedRight(c, faulty, g, t)
    ensures Vouched(c, faulty, g, t) && ReadyVouched(c, faulty, g, t)
  {
    hide SaidInChain;
    hide B.TruthfulEchoes;
    hide B.TruthfulReadies;
    hide B.HasQuorum;
    hide EchoBacked;
    hide ReadyQuorum;
    hide ReadiedBy;
    hide Justified;
    forall k | B.HasQuorum(c, t.echos, k) ensures EchoBacked(c, faulty, g, k) {
      EchoesVouch(c, faulty, b, g, t.echos, k);
    }
    forall k | B.HasQuorum(c, t.readies, k) ensures ReadyQuorum(c, faulty, g, k) {
      ReadiesVouch(c, faulty, b, g, t.readies, k);
    }
    forall k | |B.Votes(t.readies, k)| >= SomeCorrectQuorum(c)
      ensures exists q :: |q| >= SomeCorrectQuorum(c) && ReadiedBy(c, faulty, g, k, q)
    {
      ReadiesVouch(c, faulty, b, g, t.readies, k);
    }
  }

  lemma RecordedTruthful(c: NetworkConfig, faulty: set<NodeId>, b: B.Network, t: B.Target, event: B.Event)
    requires B.TruthfulEchoes(c, faulty, b, t.echos) && B.TruthfulReadies(c, faulty, b, t.readies)
    requires B.Deliverable(c, faulty, b, event)
    ensures
      var t1 := Recorded(t, event);
      B.TruthfulEchoes(c, faulty, b, t1.echos) && B.TruthfulReadies(c, faulty, b, t1.readies)
  {
    hide B.TruthfulEchoes;
    hide B.TruthfulReadies;
    hide B.Deliverable;
    hide B.Record;
    match event {
      case GotEcho(source, k) => B.RecordEcho(c, faulty, b, t.echos, k, source);
      case GotReady(source, k) => B.RecordReady(c, faulty, b, t.readies, k, source);
      case _ =>
    }
  }

  lemma {:induction false} PathKeepsInv(c: NetworkConfig, faulty: set<NodeId>, path: seq<Network>, t: nat)
    requires IsPath(c, faulty, path) && t < |path| && Inv(c, faulty, path[0])
    ensures Inv(c, faulty, path[t])
  {
    hide Inv;
    hide Next;
    if t > 0 {
      PathKeepsInv(c, faulty, path, t - 1);
      assert NextAny(c, faulty, path[t - 1], path[t]);
      var i, step :| Next(c, faulty, path[t - 1], path[t], i, step);
      NextKeepsInv(c, faulty, path[t - 1], path[t], i, step);
    }
  }

  lemma LeadsKeepsInv(c: NetworkConfig, faulty: set<NodeId>, g: Network, g': Network)
    requires Inv(c, faulty, g) && Leads(c, faulty, g, g')
    ensures Inv(c, faulty, g')
  {
    hide Inv;
    hide NextAny;
    var path :| IsPath(c, faulty, path) && path[0] == g && path[|path| - 1] == g';
    PathKeepsInv(c, faulty, path, |path| - 1);
  }

  lemma LinkFacts(c: NetworkConfig, faulty: set<NodeId>, e: nat, n: B.Node, g: Network, i: NodeId, event: B.Event)
    requires i in g && NodeLinked(c, faulty, e, n, g, i) && g[i].epoch == e
    ensures Linked(c, e, n.target, g[i]) && VerifiedRight(c, faulty, g, n.target)
    ensures VerifiedRight(c, faulty, g, Recorded(n.target, event))
  {
    hide Linked;
    hide Justified;
    hide B.Record;
  }

  lemma SaidByAll(c: NetworkConfig, faulty: set<NodeId>, e: nat, w: World)
    requires WorldInv(c, faulty, e, w)
    ensures SaidInChain(w.targets, w.chain)
  {
    hide Inv;
    hide B.Inv;
    hide Linked;
    hide VerifiedRight;
    forall j | j in w.chain
      ensures w.targets[j].echoed <= w.chain[j].echoes && w.targets[j].readied <= w.chain[j].readies
    {
      assert NodeLinked(c, faulty, e, w.targets[j], w.chain, j);
    }
  }

  lemma TargetTruthful(c: NetworkConfig, faulty: set<NodeId>, b: B.Network, i: NodeId)
    requires B.Inv(c, faulty, b) && i in b
    ensures B.TruthfulEchoes(c, faulty, b, b[i].target.echos) && B.TruthfulReadies(c, faulty, b, b[i].target.readies)
  {
    hide B.TruthfulEchoes;
    hide B.TruthfulReadies;
    hide B.NodeInv;
    hide B.EchoBacked;
  }

  /** The move of a target is a path of its replica. */
  lemma TargetMoveRefines(c: NetworkConfig, faulty: set<NodeId>, e: nat, w: World, w': World, i: NodeId, env: B.Env,
                          event: B.Event, out: seq<B.Action>, batch: Batches)
    requires WorldInv(c, faulty, e, w) && TargetMove(c, faulty, e, w, w', i, env, event, out, batch)
    ensures Refined(c, faulty, e, w.chain, i, After(c, w.chain[i], batch, w'.targets[i].target, out), w'.targets[i].target)
  {
    hide Inv;
    hide B.Inv;
    hide NodeLinked;
    hide B.Handles;
    hide B.Deliverable;
    hide Linked;
    hide VerifiedRight;
    hide Sound;
    hide SaidInChain;
    hide B.TruthfulEchoes;
    hide B.TruthfulReadies;
    hide Vouched;
    hide ReadyVouched;
    hide Refined;
    hide After;
    hide Recorded;
    var g, b, t, t' := w.chain, w.targets, w.targets[i].target, w'.targets[i].target;
    assert NodeLinked(c, faulty, e, b[i], g, i);
    LinkFacts(c, faulty, e, b[i], g, i, event);
    SaidByAll(c, faulty, e, w);
    TargetTruthful(c, faulty, b, i);
    RecordedTruthful(c, faulty, b, t, event);
    var t1 := Recorded(t, event);
    TalliesVouch(c, faulty, b, g, t1);
    TalliesVouch(c, faulty, b, g, t);
    EventRefines(c, faulty, e, g, i, env, t, t', out, event, batch);
  }

  lemma MovedLinked(c: NetworkConfig, faulty: set<NodeId>, e: nat, g: Network, i: NodeId, n: B.Node, n': B.Node,
                    out: seq<B.Action>, batch: Batches)
    requires i in g && NodeLinked(c, faulty, e, n, g, i) && c.checkpointInterval > 0
    requires n'.echoed == n.echoed + B.EchoesIn(out) && n'.readied == n.readied + B.ReadiesIn(out)
    requires Refined(c, faulty, e, g, i, After(c, g[i], batch, n'.target, out), n'.target)
    ensures NodeLinked(c, faulty, e, n', g[i := After(c, g[i], batch, n'.target, out)], i)
  {
    PerformedSays(c, g[i], batch, out);
    hide Performed;
    hide B.EchoesIn;
    hide B.ReadiesIn;
    hide Leads;
    hide Justified;
    hide Grows;
  }

  lemma OthersLinked(c: NetworkConfig, faulty: set<NodeId>, e: nat, g: Network, g': Network, n: B.Node, j: NodeId)
    requires j in g && NodeLinked(c, faulty, e, n, g, j) && NetworkGrows(g, g') && g'[j] == g[j]
    ensures NodeLinked(c, faulty, e, n, g', j)
  {
    hide Linked;
    hide Justified;
    if g[j].epoch == e && B.Rank(n.target.state) >= B.Rank(B.Fetching) {
      StillJustified(c, faulty, g, g', n.target.verified.value);
    }
  }

  lemma TargetMoveKeeps(c: NetworkConfig, faulty: set<NodeId>, e: nat, w: World, w': World, i: NodeId, env: B.Env,
                        event: B.Event, out: seq<B.Action>, batch: Batches)
    requires WorldInv(c, faulty, e, w) && TargetMove(c, faulty, e, w, w', i, env, event, out, batch)
    ensures WorldInv(c, faulty, e, w') && Leads(c, faulty, w.chain, w'.chain)
  {
    hide NetworkGrows;
    hide NodeLinked;
    hide Inv;
    hide B.Inv;
    hide B.Handles;
    hide B.Deliverable;
    hide B.EchoesIn;
    hide B.ReadiesIn;
    hide Sound;
    hide After;
    hide Leads;
    hide Grows;
    hide Linked;
    hide Vouched;
    hide Recorded;
    TargetMoveRefines(c, faulty, e, w, w', i, env, event, out, batch);
    B.NextKeepsInv(c, faulty, w.targets, w'.targets, i, env, event, out);
    var g, g' := w.chain, w'.chain;
    assert NodeLinked(c, faulty, e, w.targets[i], g, i);
    MovedLinked(c, faulty, e, g, i, w.targets[i], w'.targets[i], out, batch);
    OneGrows(g, i, g'[i]);
    LeadsKeepsInv(c, faulty, g, g');
    forall j | j in g' ensures NodeLinked(c, faulty, e, w'.targets[j], g', j) {
      if j != i {
        assert NodeLinked(c, faulty, e, w.targets[j], g, j);
        OthersLinked(c, faulty, e, g, g', w.targets[j], j);
      }
    }
  }

  lemma LinkedKept(c: NetworkConfig, e: nat, t: B.Target, r: Replica, r': Replica, step: Step)
    requires Linked(c, e, t, r) && Takes(c, r, r', step) && !ByTarget(step) && r'.epoch == e
    ensures Linked(c, e, t, r')
  {
    hide Opened;
    hide Truncated;
  }

  lemma BegunLinked(c: NetworkConfig, e: nat, r: Replica, r': Replica, step: Step)
    requires c.checkpointInterval > 0 && r.epoch < e && Takes(c, r, r', step) && r'.epoch >= e
    ensures r'.epoch == e ==> Linked(c, e, B.Fresh(), r')
  {
    hide Opened;
    hide Truncated;
    hide EchoLog;
    hide ReadyLog;
    hide CarriedVotes;
    hide AfterChange;
    hide Above;
  }

  lemma EpochGrows(c: NetworkConfig, r: Replica, r': Replica, step: Step)
    requires Takes(c, r, r', step)
    ensures r'.epoch >= r.epoch
  {
    hide Opened;
    hide Truncated;
    hide EchoLog;
    hide ReadyLog;
    hide CarriedVotes;
    hide AfterChange;
    hide Above;
  }

  lemma SteppedLinked(c: NetworkConfig, faulty: set<NodeId>, e: nat, g: Network, g': Network, n: B.Node, i: NodeId,
                      step: Step)
    requires i in g && i in g' && NodeLinked(c, faulty, e, n, g, i) && NetworkGrows(g, g') && Takes(c, g[i], g'[i], step)
    requires c.checkpointInterval > 0 && (g[i].epoch == e ==> !ByTarget(step))
    ensures NodeLinked(c, faulty, e, n, g', i)
  {
    EpochGrows(c, g[i], g'[i], step);
    if g[i].epoch < e <= g'[i].epoch {
      BegunLinked(c, e, g[i], g'[i], step);
    } else if g[i].epoch == e == g'[i].epoch {
      LinkedKept(c, e, n.target, g[i], g'[i], step);
      hide Takes;
      hide Justified;
      if B.Rank(n.target.state) >= B.Rank(B.Fetching) {
        StillJustified(c, faulty, g, g', n.target.verified.value);
      }
    }
    hide Takes;
    hide Linked;
    hide Justified;
  }

  lemma ReplicaOf(c: NetworkConfig, faulty: set<NodeId>, g: Network, i: NodeId)
    requires Inv(c, faulty, g) && i in g
    ensures ReplicaInv(c, g[i])
  {
    hide ReplicaInv;
    hide Offer;
    hide FromLeader;
    hide Backed;
    hide EchoBacked;
    hide ReadiedSomewhere;
  }

  lemma ChainMoveKeeps(c: NetworkConfig, faulty: set<NodeId>, e: nat, w: World, w': World, i: NodeId, step: Step)
    requires WorldInv(c, faulty, e, w) && ChainMove(c, faulty, e, w, w', i, step)
    ensures WorldInv(c, faulty, e, w') && Leads(c, faulty, w.chain, w'.chain)
  {
    hide Inv;
    hide B.Inv;
    hide ReplicaInv;
    hide Takes;
    hide Allowed;
    hide NetworkGrows;
    hide NodeLinked;
    hide Grows;
    hide Leads;
    var g, g' := w.chain, w'.chain;
    NextKeepsInv(c, faulty, g, g', i, step);
    assert NodeLinked(c, faulty, e, w.targets[i], g, i);
    ReplicaOf(c, faulty, g, i);
    StepGrows(c, g[i], g'[i], step);
    OneGrows(g, i, g'[i]);
    assert NextAny(c, faulty, g, g');
    LeadsNowhere(c, faulty, g);
    LeadsOn(c, faulty, g, g, g');
    forall j | j in g' ensures NodeLinked(c, faulty, e, w'.targets[j], g', j) {
      if j == i {
        SteppedLinked(c, faulty, e, g, g', w.targets[i], i, step);
      } else {
        assert NodeLinked(c, faulty, e, w.targets[j], g, j);
        OthersLinked(c, faulty, e, g, g', w.targets[j], j);
      }
    }
  }

  lemma FreshWorld(c: NetworkConfig, faulty: set<NodeId>, e: nat, run: seq<World>)
    requires IsWorldRun(c, faulty, e, run)
    ensures WorldInv(c, faulty, e, run[0])
  {
    hide Moves;
    CorrectNodes(c, faulty, run[0].chain);
    hide Inv;
    FreshTargets(c, faulty, run[0].targets);
    hide B.Inv;
    hide Linked;
    hide VerifiedRight;
  }

  lemma CorrectNodes(c: NetworkConfig, faulty: set<NodeId>, g: Network)
    requires Inv(c, faulty, g)
    ensures g.Keys == NodeSet(c) - faulty
  {
    hide ReplicaInv;
    hide Offer;
    hide FromLeader;
    hide Backed;
    hide EchoBacked;
    hide ReadiedSomewhere;
  }

  lemma FreshTargets(c: NetworkConfig, faulty: set<NodeId>, b: B.Network)
    requires FaultBound(c, faulty) && b.Keys == NodeSet(c) - faulty
    requires forall i :: i in b ==> b[i] == B.Node(B.Fresh(), {}, {})
    ensures B.Inv(c, faulty, b)
  {
  }

  /** In every run of an epoch's targets the replicas that obey them go through states of the chain. */
  lemma {:induction false} RunRefines(c: NetworkConfig, faulty: set<NodeId>, e: nat, run: seq<World>, t: nat)
    requires IsWorldRun(c, faulty, e, run) && t < |run|
    ensures WorldInv(c, faulty, e, run[t]) && Leads(c, faulty, run[0].chain, run[t].chain)
  {
    hide WorldInv;
    hide Leads;
    hide TargetMove;
    hide ChainMove;
    hide Inv;
    if t == 0 {
      FreshWorld(c, faulty, e, run);
      LeadsNowhere(c, faulty, run[0].chain);
    } else {
      RunRefines(c, faulty, e, run, t - 1);
      var w, w' := run[t - 1], run[t];
      assert Moves(c, faulty, e, w, w');
      if i, env, event, out, batch :| TargetMove(c, faulty, e, w, w', i, env, event, out, batch) {
        TargetMoveKeeps(c, faulty, e, w, w', i, env, event, out, batch);
      } else {
        var i, step :| ChainMove(c, faulty, e, w, w', i, step);
        ChainMoveKeeps(c, faulty, e, w, w', i, step);
      }
      LeadsFurther(c, faulty, run[0].chain, w.chain, w'.chain);
    }
  }

  /** So a run of the chain can be continued to each of them, and all that is proved of runs holds there. */
  lemma RunContinues(c: NetworkConfig, faulty: set<NodeId>, e: nat, run: seq<World>, t: nat, before: seq<Network>, value: nat,
                     config: EpochConfig) returns (chain: seq<Network>)
    requires IsWorldRun(c, faulty, e, run) && t < |run|
    requires IsRun(c, faulty, before, value, config) && before[|before| - 1] == run[0].chain
    ensures IsRun(c, faulty, chain, value, config) && chain[|chain| - 1] == run[t].chain
  {
    hide WorldInv;
    hide NextAny;
    hide Starts;
    hide Moves;
    hide Inv;
    RunRefines(c, faulty, e, run, t);
    var path :| IsPath(c, faulty, path) && path[0] == run[0].chain && path[|path| - 1] == run[t].chain;
    chain := before + path[1..];
    forall n | 0 < n < |chain| ensures NextAny(c, faulty, chain[n - 1], chain[n]) {
      if n >= |before| {
        var m := n - |before| + 1;
        assert chain[n] == path[m] && chain[n - 1] == path[m - 1];
      }
    }
  }
}
