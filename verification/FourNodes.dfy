/** A network of four nodes of which node 3 is faulty. */
module FourNodes {
  import opened Types
  import opened Quorums
  import opened Intervals
  import opened EpochChanges
  import opened NewEpochConfigs
  import opened WriteAheadLog
  import opened ReplicaVotes
  import opened EpochChain
  import opened Scenarios
  import opened JointRuns
  import opened JointPaths
  import Buckets
  import S = Sequences
  import TP = ThreePhase
  import SR = SlotRuns

  function Four(ci: nat): NetworkConfig {
    NetworkConfig([0, 1, 2, 3], 1, 1, ci, 10)
  }

  const FAULTY: set<NodeId> := {3}
  const GENESIS := EpochConfig(0, [], 0)
  const ZERO := Checkpoint(0, 0)

  lemma OneFaulty()
    ensures FAULTY == {3}
  {
  }

  lemma FourFacts(ci: nat)
    requires ci > 0
    ensures FaultBound(Four(ci), FAULTY) && NodeSet(Four(ci)) == {0, 1, 2, 3}
    ensures IntersectionQuorum(Four(ci)) == 3 && SomeCorrectQuorum(Four(ci)) == 2
    ensures IsQuorum(Four(ci), {0, 1, 2}) && IsQuorum(Four(ci), {0, 1, 3}) && IsQuorum(Four(ci), {1, 2, 3})
  {
    var c := Four(ci);
    assert c.nodes[0] == 0 && c.nodes[1] == 1 && c.nodes[2] == 2 && c.nodes[3] == 3;
    assert NodeSet(c) == {0, 1, 2, 3};
    assert |{0, 1, 2}| == 3 && |{0, 1, 3}| == 3 && |{1, 2, 3}| == 3;
  }

  // ---------------------------------------------------------------- runs

  function Three(a: Replica, b: Replica, c: Replica): Network {
    map[0 := a, 1 := b, 2 := c]
  }

  ghost predicate RunTo(ci: nat, run: seq<Joint>, j: Joint) {
    run != [] && IsJointRun(Four(ci), FAULTY, run, 0, GENESIS) && Last(run) == j
  }

  ghost predicate Reached(ci: nat, j: Joint) {
    exists run: seq<Joint> :: RunTo(ci, run, j)
  }

  ghost predicate At(ci: nat, j: Joint) {
    Reached(ci, j) && j.chain.Keys == {0, 1, 2}
  }

  lemma AtInv(ci: nat, j: Joint)
    requires At(ci, j)
    ensures JointInv(Four(ci), FAULTY, j) && Inv(Four(ci), FAULTY, j.chain)
  {
    hide IsJointRun;
    hide JointInv;
    var run: seq<Joint> :| RunTo(ci, run, j);
    RunKeepsJointInv(Four(ci), FAULTY, run, 0, GENESIS, |run| - 1);
    ChainInv(Four(ci), FAULTY, j);
  }

  lemma Onwards(ci: nat, j: Joint, j': Joint)
    requires Reached(ci, j) && Reaches(Four(ci), FAULTY, j, j')
    ensures Reached(ci, j')
  {
    hide JointNextAny;
    hide Starts;
    var run: seq<Joint> :| RunTo(ci, run, j);
    var path :| Leads(Four(ci), FAULTY, path, j, j');
    var longer := run + path[1..];
    forall t | 0 < t < |longer| ensures JointNextAny(Four(ci), FAULTY, longer[t - 1], longer[t]) {
      if t < |run| {
        assert longer[t - 1] == run[t - 1] && longer[t] == run[t];
      } else {
        var u := t - |run| + 1;
        assert longer[t] == path[u] && longer[t - 1] == path[u - 1];
      }
    }
    assert RunTo(ci, longer, j');
  }

  lemma Genesis(ci: nat) returns (j: Joint)
    requires ci > 0
    ensures At(ci, j) && j.phases == map[] && forall i :: i in j.chain ==> j.chain[i] == Initial(0, GENESIS)
  {
    hide Initial;
    hide JointInv;
    hide JointNextAny;
    var r := Initial(0, GENESIS);
    j := Joint(Three(r, r, r), map[]);
    FourFacts(ci);
    assert j.chain.Keys == {0, 1, 2};
    assert Starts(Four(ci), FAULTY, j.chain, 0, GENESIS);
    assert RunTo(ci, [j], j);
  }

  /** Only the replicas in `q` moved, and nothing said was unsaid. */
  ghost predicate Moved(j: Joint, j': Joint, q: set<NodeId>) {
    && j'.phases == j.phases && j'.chain.Keys == j.chain.Keys && NetworkGrows(j.chain, j'.chain)
    && forall i :: i in j.chain && i !in q ==> j'.chain[i] == j.chain[i]
  }

  lemma Merged(g: Network, after: Network)
    requires after.Keys <= g.Keys
    ensures (g + after).Keys == g.Keys
    ensures forall i :: i in after ==> (g + after)[i] == after[i]
    ensures forall i :: i in g && i !in after ==> (g + after)[i] == g[i]
  {
  }

  lemma Go(ci: nat, j: Joint, after: Network, step: Step) returns (j': Joint)
    requires At(ci, j) && after.Keys <= j.chain.Keys && IsPlain(step)
    requires forall i :: i in after ==> MayMove(Four(ci), FAULTY, j.chain, i, after[i], step)
    ensures At(ci, j') && Moved(j, j', after.Keys) && forall i :: i in after ==> j'.chain[i] == after[i]
  {
    hide Reached;
    hide JointInv;
    hide Inv;
    hide MayMove;
    hide Reaches;
    hide NetworkGrows;
    hide IsPlain;
    hide Four;
    AtInv(ci, j);
    j' := j.(chain := j.chain + after);
    MoveAll(Four(ci), FAULTY, j, after, step);
    Onwards(ci, j, j');
    Merged(j.chain, after);
  }

  const BLANK := Content(0, [ZERO], [], [])

  lemma GenesisReads()
    ensures Reads(Initial(0, GENESIS).log, BLANK)
  {
    var log := Initial(0, GENESIS).log;
    assert CReport(log, 1) == [ZERO] && CReport(log, 2) == [ZERO];
    assert VoteReport(log, 1, Prepared) == [] && VoteReport(log, 1, Preprepared) == [];
  }

  // ---------------------------------------------------------------- what is constructed from epoch changes

  /** The first epoch is led by all nodes, later ones by the node that offers them. */
  function Leaders(e: nat): seq<NodeId> {
    if e == 1 then [0, 1, 2, 3] else [e % 4]
  }

  function Config(e: nat, digests: seq<Digest>): NewEpochConfig {
    NewEpochConfig(EpochConfig(e, Leaders(e), 10), ZERO, digests)
  }

  /** Epoch changes for `e` from a quorum, all with low watermark 0. */
  ghost predicate AtZero(ec: Changes, e: nat) {
    && (ec.Keys == {0, 1, 2} || ec.Keys == {1, 2, 3})
    && forall i :: i in ec ==> ec[i].lowWatermark == 0 && ec[i].underlying.newEpoch == e
  }

  /** None of them names a checkpoint but 0. */
  ghost predicate FromZero(ec: Changes, e: nat) {
    AtZero(ec, e) && forall i :: i in ec ==> ec[i].underlying.checkpoints == [ZERO]
  }

  lemma SupportersOfFour(ec: Changes, key: Checkpoint)
    ensures Supporters([0, 1, 2, 3], ec, key) ==
            NamedBy(ec, 0, key) + NamedBy(ec, 1, key) + NamedBy(ec, 2, key) + NamedBy(ec, 3, key)
  {
    hide Named;
    hide NamedBy;
    assert Init([0, 1, 2, 3]) == [0, 1, 2] && Init([0, 1, 2]) == [0, 1] && Init([0, 1]) == [0] && Init([0]) == [];
    assert Supporters([0], ec, key) == NamedBy(ec, 0, key);
    assert Supporters([0, 1], ec, key) == NamedBy(ec, 0, key) + NamedBy(ec, 1, key);
    assert Supporters([0, 1, 2], ec, key) == NamedBy(ec, 0, key) + NamedBy(ec, 1, key) + NamedBy(ec, 2, key);
  }

  lemma ZeroNamed(ec: Changes, e: nat, key: Checkpoint)
    requires FromZero(ec, e)
    ensures key == ZERO ==> |Supporters([0, 1, 2, 3], ec, key)| == 3
    ensures key != ZERO ==> Supporters([0, 1, 2, 3], ec, key) == []
  {
    hide Supporters;
    hide Named;
    SupportersOfFour(ec, key);
    forall i | i in ec ensures NamedBy(ec, i, key) == if key == ZERO then [i] else [] {
      NamedOnce([ZERO], i, key);
    }
  }

  lemma ScansToZero(ci: nat, ec: Changes, e: nat)
    requires ci > 0 && FromZero(ec, e)
    ensures IsOrder(Four(ci), ec, [ZERO]) && ScanInOrder(Four(ci), ec, [ZERO]) == Best(Some(ZERO))
  {
    hide Supporters;
    var c := Four(ci);
    FourFacts(ci);
    forall key ensures key in [ZERO] <==> Supporters(c.nodes, ec, key) != [] {
      ZeroNamed(ec, e, key);
    }
    ZeroNamed(ec, e, ZERO);
    assert AtOrBelow(ec, 0) == ec.Keys;
    assert |{0, 1, 2}| == 3 && |{1, 2, 3}| == 3;
    assert Init([ZERO]) == [];
  }

  lemma {:induction false} OnlySelected(c: NetworkConfig, nodes: seq<NodeId>, ec: Changes, s: nat, entry: SetEntry)
    requires exists i :: i in nodes && i in ec && s in ec[i].pSet
    requires forall i :: i in ec && s in ec[i].pSet ==> ec[i].pSet[s] == entry
    requires Selects(c, ec, s, entry)
    ensures FirstSelected(c, nodes, ec, s) == Some(entry)
  {
    hide Selects;
    if !(nodes[0] in ec && s in ec[nodes[0]].pSet) {
      var i :| i in nodes && i in ec && s in ec[i].pSet;
      assert i in nodes[1..];
      OnlySelected(c, nodes[1..], ec, s, entry);
    }
  }

  /** One entry prepared by `i`, which nobody contradicts and a second node vouches for. */
  lemma CarriesEntry(ci: nat, ec: Changes, e: nat, s: nat, entry: SetEntry, i: NodeId, j: NodeId)
    requires ci > 0 && AtZero(ec, e) && s > 0
    requires i in ec && j in ec && i != j && s in ec[i].pSet
    requires forall n :: n in ec && s in ec[n].pSet ==> ec[n].pSet[s] == entry
    requires A2Vote(ec[i], s, entry) && A2Vote(ec[j], s, entry)
    ensures CarryAt(Four(ci), ec, s) == Carried(entry.digest)
  {
    hide A2Vote;
    var c := Four(ci);
    FourFacts(ci);
    assert A1Votes(ec, s, entry) == ec.Keys;
    assert |{0, 1, 2}| == 3 && |{1, 2, 3}| == 3;
    SubsetSize({i, j}, A2Votes(ec, s, entry));
    assert |{i, j}| == 2;
    assert Selects(c, ec, s, entry);
    hide Selects;
    assert i in c.nodes by {
      assert c.nodes[0] == 0 && c.nodes[1] == 1 && c.nodes[2] == 2 && c.nodes[3] == 3;
    }
    OnlySelected(c, c.nodes, ec, s, entry);
  }

  lemma CarriesNothing(ci: nat, ec: Changes, e: nat, s: nat)
    requires ci > 0 && AtZero(ec, e) && s > 0
    requires forall n :: n in ec ==> s !in ec[n].pSet
    ensures CarryAt(Four(ci), ec, s) == Nothing
  {
    hide FirstSelected;
    FourFacts(ci);
    NoneSelected(Four(ci), Four(ci).nodes, ec, s);
    assert BVotes(ec, s) == ec.Keys;
    assert |{0, 1, 2}| == 3 && |{1, 2, 3}| == 3;
  }

  lemma ChoosesFrom(ci: nat, ec: Changes, e: nat, order: seq<Checkpoint>, digests: seq<Digest>)
    requires ci > 0 && AtZero(ec, e) && DigestsAt(Four(ci), ec, 0) == Some(digests)
    requires ScanInOrder(Four(ci), ec, order) == Best(Some(ZERO))
    ensures OutcomeInOrder(Four(ci), Leaders(e), ec, order) == Chosen(Config(e, digests))
  {
    hide DigestsAt;
    hide ScanInOrder;
    var nodes := [0, 1, 2, 3];
    assert nodes[1] == 1 && 1 in nodes && 1 in ec;
    SameNumber(nodes, ec, e);
  }

  /** Nothing prepared: the new epoch carries nothing over. */
  lemma ChoosesNone(ci: nat, ec: Changes, e: nat)
    requires ci > 0 && FromZero(ec, e) && forall i :: i in ec ==> ec[i].pSet == map[]
    ensures IsOrder(Four(ci), ec, [ZERO]) && OutcomeInOrder(Four(ci), Leaders(e), ec, [ZERO]) == Chosen(Config(e, []))
  {
    hide IsOrder;
    hide CarryAt;
    hide ScanInOrder;
    ScansToZero(ci, ec, e);
    forall s | 0 < s <= Window(Four(ci)) ensures CarryAt(Four(ci), ec, s) == Nothing {
      CarriesNothing(ci, ec, e, s);
    }
    ChoosesFrom(ci, ec, e, [ZERO], []);
  }

  /** Two digests carried over, or one and nothing. */
  ghost predicate CarriesPair(ec: Changes, d1: Digest, d2: Digest) {
    && (CarryAt(Four(1), ec, 1) == Carried(d1) || (CarryAt(Four(1), ec, 1) == Nothing && d1 == NullDigest))
    && (CarryAt(Four(1), ec, 2) == Carried(d2) || (CarryAt(Four(1), ec, 2) == Nothing && d2 == NullDigest))
    && (CarryAt(Four(1), ec, 1).Carried? || CarryAt(Four(1), ec, 2).Carried?)
  }

  lemma PairChosen(ec: Changes, e: nat, order: seq<Checkpoint>, d1: Digest, d2: Digest)
    requires AtZero(ec, e) && CarriesPair(ec, d1, d2) && ScanInOrder(Four(1), ec, order) == Best(Some(ZERO))
    ensures OutcomeInOrder(Four(1), Leaders(e), ec, order) == Chosen(Config(e, [d1, d2]))
  {
    hide CarryAt;
    hide ScanInOrder;
    forall s | 0 < s <= 2 ensures !CarryAt(Four(1), ec, s).Undecided? {
      assert s == 1 || s == 2;
    }
    assert CarriedDigests(Four(1), ec, 0, 2) == [d1, d2];
    ChoosesFrom(1, ec, e, order, [d1, d2]);
  }

  lemma ChoosesPair(ec: Changes, e: nat, d1: Digest, d2: Digest)
    requires FromZero(ec, e) && CarriesPair(ec, d1, d2)
    ensures IsOrder(Four(1), ec, [ZERO]) && OutcomeInOrder(Four(1), Leaders(e), ec, [ZERO]) == Chosen(Config(e, [d1, d2]))
  {
    hide IsOrder;
    hide CarriesPair;
    hide ScanInOrder;
    hide OutcomeInOrder;
    ScansToZero(1, ec, e);
    PairChosen(ec, e, [ZERO], d1, d2);
  }

  lemma ParsedLow(m: EpochChange)
    requires m.checkpoints == [ZERO]
    ensures Parsed(m).underlying == m && Parsed(m).lowWatermark == 0
  {
  }

  lemma ParsedPrepared(m: EpochChange, s: nat)
    requires m.checkpoints != []
    ensures (forall y :: y in m.pSet ==> y.seqNo != s) ==> s !in Parsed(m).pSet
    ensures forall y :: m.pSet == [y] && y.seqNo == s ==> s in Parsed(m).pSet && Parsed(m).pSet[s] == y
  {
    if forall y :: y in m.pSet ==> y.seqNo != s {
      NotIndexed(m.pSet, s);
    }
    if |m.pSet| == 1 {
      assert Init(m.pSet) == [];
    }
  }

  lemma {:induction false} NotIndexed(entries: seq<SetEntry>, s: nat)
    requires forall y :: y in entries ==> y.seqNo != s
    ensures s !in PIndex(entries)
  {
    if entries != [] {
      assert entries == Init(entries) + [Last(entries)];
      NotIndexed(Init(entries), s);
    }
  }

  lemma ParsedVouches(m: EpochChange, entry: SetEntry)
    requires m.checkpoints != [] && DistinctSlots(m.qSet) && entry in m.qSet
    ensures A2Vote(Parsed(m), entry.seqNo, entry)
  {
    QIndexContent(m.qSet, entry.seqNo, entry.epoch, entry.digest);
    var views := Views(Parsed(m).qSet, entry.seqNo);
    assert entry.epoch in views && views[entry.epoch] == entry.digest;
  }

  // ---------------------------------------------------------------- epoch changes

  /** The parsed message `m` comes from node `i`: it is what a correct node sent for epoch `e`. */
  ghost predicate Sent(g: Network, i: NodeId, e: nat, m: EpochChange) {
    && m.checkpoints != [] && DistinctCheckpoints(m.checkpoints)
    && (i != 3 ==> i in g && e in g[i].changes && g[i].changes[e] == m)
  }

  lemma IsGenuine(ci: nat, g: Network, ec: Changes, e: nat)
    requires ci > 0 && ec.Keys <= {0, 1, 2, 3}
    requires forall i :: i in ec ==> Sent(g, i, e, ec[i].underlying) && ec[i] == Parsed(ec[i].underlying)
    ensures Genuine(Four(ci), FAULTY, g, ec, e)
  {
    hide Parsed;
    hide DistinctCheckpoints;
    FourFacts(ci);
  }

  /** The log keeps the intervals that it had opened. */
  ghost predicate KeepsN(log: Log, log': Log) {
    forall n :: HasN(log, n) ==> HasN(log', n)
  }

  /** A replica that may move on to epoch `e`. */
  ghost predicate MayLeave(r: Replica, x: Content, e: nat) {
    Reads(r.log, x) && x.tag < e && r.epoch < e && !r.pending
  }

  lemma Leave(ci: nat, j: Joint, x: map<NodeId, Content>, e: nat) returns (j': Joint)
    requires At(ci, j) && x.Keys <= j.chain.Keys && forall i :: i in x ==> MayLeave(j.chain[i], x[i], e)
    ensures At(ci, j') && Moved(j, j', x.Keys)
    ensures forall i :: i in x ==> j'.chain[i] == Changed(j.chain[i], x[i], e)
    ensures forall i :: i in x ==> Reads(j'.chain[i].log, x[i]) && KeepsN(j.chain[i].log, j'.chain[i].log)
  {
    hide At;
    hide NetworkGrows;
    hide Reads;
    hide HasN;
    hide Takes;
    var after := map i | i in x :: Changed(j.chain[i], x[i], e);
    forall i | i in after ensures MayMove(Four(ci), FAULTY, j.chain, i, after[i], Begin(e)) {
      MayBegin(Four(ci), j.chain[i], x[i], e);
    }
    hide MayMove;
    InChain(ci, j);
    j' := Go(ci, j, after, Begin(e));
    forall i | i in x ensures Reads(j'.chain[i].log, x[i]) && KeepsN(j.chain[i].log, j'.chain[i].log) {
      MayBegin(Four(ci), j.chain[i], x[i], e);
    }
  }

  lemma InChain(ci: nat, j: Joint)
    requires At(ci, j)
    ensures j.chain.Keys == {0, 1, 2}
  {
  }

  /** Its leader offers an epoch. */
  lemma LeadEpoch(ci: nat, j: Joint, l: NodeId, k: NewEpochConfig) returns (j': Joint)
    requires At(ci, j) && l in j.chain && l == k.config.number % 4 && Justified(Four(ci), FAULTY, j.chain, k)
    requires k.config.leaders == [0, 1, 2, 3] || k.config.leaders == [l]
    requires var r := j.chain[l];
             r.phase == Changing && k.config.number == r.epoch && r.epoch in r.changes
             && forall k' :: k' in r.led ==> k'.config.number != r.epoch
    ensures At(ci, j') && Moved(j, j', {l}) && j'.chain[l] == LedState(j.chain[l], k)
    ensures FromLeader(Four(ci), FAULTY, j'.chain, k) && Justified(Four(ci), FAULTY, j'.chain, k)
  {
    hide Justified;
    hide Reached;
    hide JointInv;
    hide Takes;
    var r := j.chain[l];
    MayLead(Four(ci), r, k);
    assert LeaderOf(Four(ci), k.config.number) == l;
    assert MayMove(Four(ci), FAULTY, j.chain, l, LedState(r, k), Lead(k));
    hide MayMove;
    j' := Go(ci, j, map[l := LedState(r, k)], Lead(k));
    assert map[l := LedState(r, k)].Keys == {l};
    StillJustified(Four(ci), FAULTY, j.chain, j'.chain, k);
    assert l in NodeSet(Four(ci)) by {
      assert Four(ci).nodes[l] == l;
    }
  }

  lemma FaultyLeads(ci: nat, g: Network, k: NewEpochConfig)
    requires k.config.number % 4 == 3
    ensures FromLeader(Four(ci), FAULTY, g, k)
  {
    assert Four(ci).nodes[3] == 3;
  }

  // ---------------------------------------------------------------- echo, ready, deliver, start

  /** A replica that may echo `k`. */
  ghost predicate Hearing(ci: nat, r: Replica, x: Content, k: NewEpochConfig)
    requires ci > 0
  {
    && Reads(r.log, x) && r.phase == Changing && k.config.number == r.epoch && r.epoch in r.changes && r.epoch >= x.tag
    && k.startingCheckpoint == ZERO && |k.finalPreprepares| <= 2 * ci && SecondIntervalOpened(Four(ci), r.log, k)
  }

  function EchoedContent(x: Content, k: NewEpochConfig): Content {
    x.(tag := k.config.number, preprepared := x.preprepared + CarriedEntries(k, |k.finalPreprepares|))
  }

  lemma Echoes(ci: nat, j: Joint, x: map<NodeId, Content>, k: NewEpochConfig) returns (j': Joint)
    requires ci > 0 && At(ci, j) && x.Keys <= j.chain.Keys && forall i :: i in x ==> Hearing(ci, j.chain[i], x[i], k)
    requires FromLeader(Four(ci), FAULTY, j.chain, k)
    requires forall i :: i in x ==>
               Justified(Four(ci), FAULTY, j.chain, k) || Replaceable(Four(ci), FAULTY, j.chain, i, k)
    ensures At(ci, j') && Moved(j, j', x.Keys)
    ensures forall i :: i in x ==> j'.chain[i] == EchoedState(Four(ci), j.chain[i], k)
    ensures forall i :: i in x ==> && Reads(j'.chain[i].log, EchoedContent(x[i], k))
                                   && KeepsN(j.chain[i].log, j'.chain[i].log) && HasN(j'.chain[i].log, 1)
  {
    hide At;
    hide NetworkGrows;
    hide Reads;
    hide HasN;
    hide Takes;
    hide EchoedState;
    hide Justified;
    hide Replaceable;
    hide FromLeader;
    hide SecondIntervalOpened;
    var after := map i | i in x :: EchoedState(Four(ci), j.chain[i], k);
    InChain(ci, j);
    forall i | i in after ensures MayMove(Four(ci), FAULTY, j.chain, i, after[i], Echo(k, NoRequests)) {
      MayEcho(Four(ci), j.chain[i], x[i], k);
    }
    hide MayMove;
    j' := Go(ci, j, after, Echo(k, NoRequests));
    forall i | i in x
      ensures Reads(j'.chain[i].log, EchoedContent(x[i], k)) && KeepsN(j.chain[i].log, j'.chain[i].log)
      ensures HasN(j'.chain[i].log, 1)
    {
      MayEcho(Four(ci), j.chain[i], x[i], k);
    }
  }

  lemma EchoesSuffice(ci: nat, g: Network, i: NodeId, k: NewEpochConfig, q: set<NodeId>)
    requires IsQuorum(Four(ci), q) && forall n :: n in q && n != 3 ==> n in g && k in g[n].echoes
    ensures Allowed(Four(ci), FAULTY, g, i, ReadyByEchoes(k))
  {
    assert EchoedByQuorum(Four(ci), FAULTY, g, k, q);
  }

  lemma ReadiesSuffice(ci: nat, g: Network, i: NodeId, k: NewEpochConfig, q: set<NodeId>)
    requires q <= NodeSet(Four(ci)) && forall n :: n in q && n != 3 ==> n in g && k in g[n].readies
    ensures |q| >= SomeCorrectQuorum(Four(ci)) ==> Allowed(Four(ci), FAULTY, g, i, ReadyByReadies(k))
    ensures IsQuorum(Four(ci), q) ==> Allowed(Four(ci), FAULTY, g, i, Deliver(k))
  {
    assert ReadiedBy(Four(ci), FAULTY, g, k, q);
  }

  /** A replica that echoed in the epoch of `k` and has its intervals opened. */
  ghost predicate Prepared4(ci: nat, r: Replica, k: NewEpochConfig)
    requires ci > 0
  {
    && r.phase == Echoed && r.epoch == k.config.number
    && forall s :: k.startingCheckpoint.seqNo < s <= End(k) ==> Opened(r.log, ci, s)
  }

  /** The replicas in `m` ready `k` on the echoes of `q`. */
  lemma ReadyOn(ci: nat, j: Joint, m: set<NodeId>, k: NewEpochConfig, q: set<NodeId>) returns (j': Joint)
    requires ci > 0 && At(ci, j) && m <= j.chain.Keys && IsQuorum(Four(ci), q)
    requires forall n :: n in q && n != 3 ==> n in j.chain && k in j.chain[n].echoes
    requires forall i :: i in m ==> Prepared4(ci, j.chain[i], k)
    ensures At(ci, j') && Moved(j, j', m) && forall i :: i in m ==> j'.chain[i] == ReadiedState(j.chain[i], k)
  {
    hide At;
    hide NetworkGrows;
    hide Opened;
    hide Takes;
    hide Allowed;
    hide ReadiedState;
    hide IsQuorum;
    var after := map i | i in m :: ReadiedState(j.chain[i], k);
    forall i | i in after ensures MayMove(Four(ci), FAULTY, j.chain, i, after[i], ReadyByEchoes(k)) {
      MayReady(Four(ci), j.chain[i], k);
      EchoesSuffice(ci, j.chain, i, k, q);
    }
    hide MayMove;
    j' := Go(ci, j, after, ReadyByEchoes(k));
    assert after.Keys == m;
  }

  /** The replicas in `m` join the readies of `q`, without P entries. */
  lemma JoinOn(ci: nat, j: Joint, m: set<NodeId>, k: NewEpochConfig, q: set<NodeId>) returns (j': Joint)
    requires ci > 0 && At(ci, j) && m <= j.chain.Keys && q <= NodeSet(Four(ci)) && |q| >= 2
    requires forall n :: n in q && n != 3 ==> n in j.chain && k in j.chain[n].readies
    requires forall i :: i in m ==> j.chain[i].phase == Echoed && j.chain[i].epoch == k.config.number
    ensures At(ci, j') && Moved(j, j', m) && forall i :: i in m ==> j'.chain[i] == JoinedState(j.chain[i], k)
  {
    hide At;
    hide NetworkGrows;
    hide Takes;
    hide Allowed;
    hide JoinedState;
    hide NodeSet;
    var after := map i | i in m :: JoinedState(j.chain[i], k);
    forall i | i in after ensures MayMove(Four(ci), FAULTY, j.chain, i, after[i], ReadyByReadies(k)) {
      MayJoin(Four(ci), j.chain[i], k);
      ReadiesSuffice(ci, j.chain, i, k, q);
    }
    hide MayMove;
    j' := Go(ci, j, after, ReadyByReadies(k));
    assert after.Keys == m;
  }

  /** The replicas in `m` deliver `k` on the readies of `q` and commit what they echoed. */
  lemma DeliverOn(ci: nat, j: Joint, m: set<NodeId>, k: NewEpochConfig, q: set<NodeId>) returns (j': Joint)
    requires ci > 0 && At(ci, j) && m <= j.chain.Keys && IsQuorum(Four(ci), q)
    requires forall n :: n in q && n != 3 ==> n in j.chain && k in j.chain[n].readies
    requires forall i :: i in m ==> j.chain[i].phase == Readied && j.chain[i].epoch == k.config.number
    ensures At(ci, j') && Moved(j, j', m)
    ensures forall i :: i in m ==>
              && j.chain[i].echoed.Some?
              && j'.chain[i] == j.chain[i].(phase := Delivered, adopted := j.chain[i].adopted + {k},
                                            delivered := j.chain[i].delivered + Commits(j.chain[i]))
  {
    hide At;
    hide NetworkGrows;
    hide Takes;
    hide Allowed;
    hide AfterChange;
    hide Above;
    hide CarriedVotes;
    hide IsQuorum;
    var after := map i | i in m :: DeliveredState(j.chain[i], k);
    forall i | i in after ensures MayMove(Four(ci), FAULTY, j.chain, i, after[i], Deliver(k)) {
      MayDeliver(Four(ci), j.chain[i], k);
      QuorumInside(ci, q);
      ReadiesSuffice(ci, j.chain, i, k, q);
    }
    hide MayMove;
    j' := Go(ci, j, after, Deliver(k));
    assert after.Keys == m;
    forall i | i in m
      ensures j.chain[i].echoed.Some?
      ensures DeliveredState(j.chain[i], k).delivered == j.chain[i].delivered + Commits(j.chain[i])
    {
      DeliversEchoed(ci, j, i, k);
    }
  }

  lemma QuorumInside(ci: nat, q: set<NodeId>)
    requires IsQuorum(Four(ci), q)
    ensures q <= NodeSet(Four(ci))
  {
  }

  /** What a replica commits on delivery: the digests that it echoed, above its last checkpoint. */
  function Commits(r: Replica): set<Vote> {
    if r.echoed.None? then {}
    else Above(CarriedVotes(r.echoed.value, |r.echoed.value.finalPreprepares|), r.lastCheckpoint)
  }

  lemma DeliversEchoed(ci: nat, j: Joint, i: NodeId, k: NewEpochConfig)
    requires At(ci, j) && i in j.chain && j.chain[i].phase == Readied && j.chain[i].epoch == k.config.number
    ensures j.chain[i].echoed.Some?
    ensures DeliveredState(j.chain[i], k).delivered == j.chain[i].delivered + Commits(j.chain[i])
  {
    hide At;
    hide Inv;
    hide JointInv;
    AtInv(ci, j);
    ReplicaHasInv(Four(ci), FAULTY, j.chain, i);
    hide ReplicaInv;
    hide AfterChange;
    hide CarriedVotes;
    DeliveryCommitsEchoed(Four(ci), j.chain[i], DeliveredState(j.chain[i], k), k);
  }

  lemma ReplicaHasInv(c: NetworkConfig, faulty: set<NodeId>, g: Network, i: NodeId)
    requires Inv(c, faulty, g) && i in g
    ensures ReplicaInv(c, g[i])
  {
    hide ReplicaInv;
    hide Offer;
    hide FromLeader;
    hide Backed;
    hide EchoBacked;
    hide ReadiedSomewhere;
  }

  /** The replicas in `m` start working in the epoch. */
  lemma StartWork(ci: nat, j: Joint, m: set<NodeId>) returns (j': Joint)
    requires ci > 0 && At(ci, j) && m <= j.chain.Keys
    requires forall i :: i in m ==> && j.chain[i].phase == Delivered && j.chain[i].echoed.Some?
                                    && j.chain[i].lastCheckpoint == End(j.chain[i].echoed.value)
    ensures At(ci, j') && Moved(j, j', m) && forall i :: i in m ==> j'.chain[i] == StartedState(j.chain[i])
  {
    hide At;
    hide NetworkGrows;
    hide Takes;
    hide Allowed;
    var after := map i | i in m :: StartedState(j.chain[i]);
    forall i | i in after ensures MayMove(Four(ci), FAULTY, j.chain, i, after[i], Start) {
      MayStart(Four(ci), j.chain[i]);
      StartAllowed(ci, j.chain, i);
    }
    hide MayMove;
    j' := Go(ci, j, after, Start);
    assert after.Keys == m;
  }

  lemma StartAllowed(ci: nat, g: Network, i: NodeId)
    ensures Allowed(Four(ci), FAULTY, g, i, Start)
  {
  }

  // ---------------------------------------------------------------- an epoch that carries nothing over

  lemma {:induction false} QuietParsed(x: Content, e: nat)
    requires x.checkpoints == [ZERO] && x.prepared == []
    ensures
      var m := Parsed(ChangeFor(x, e));
      m.underlying == ChangeFor(x, e) && m.lowWatermark == 0 && m.pSet == map[]
  {
  }

  /** Nothing prepared at 1 and 2, and a faulty node that reports nothing. */
  lemma QuietJustified(ci: nat, g: Network, x: Content, y: Content, e: nat)
    requires ci > 0 && g.Keys == {0, 1, 2} && x.checkpoints == y.checkpoints == [ZERO] && x.prepared == y.prepared == []
    requires e in g[1].changes && g[1].changes[e] == ChangeFor(x, e)
    requires e in g[2].changes && g[2].changes[e] == ChangeFor(y, e)
    ensures Justified(Four(ci), FAULTY, g, Config(e, []))
  {
    hide IsOrder;
    hide OutcomeInOrder;
    hide Genuine;
    hide Parsed;
    QuietParsed(x, e);
    QuietParsed(y, e);
    QuietParsed(BLANK, e);
    var ec: Changes := map[1 := Parsed(ChangeFor(x, e)), 2 := Parsed(ChangeFor(y, e)), 3 := Parsed(ChangeFor(BLANK, e))];
    assert ec.Keys == {1, 2, 3};
    ChoosesNone(ci, ec, e);
    IsGenuine(ci, g, ec, e);
    assert JustifiedBy(Four(ci), FAULTY, g, Config(e, []), ec, Leaders(e), [ZERO]);
  }

  /** A replica at work in an epoch that carried nothing over, having come from `r`. */
  ghost predicate AtWork(r: Replica, r': Replica, k: NewEpochConfig) {
    && r'.phase == Active && r'.epoch == k.config.number && r'.echoed == Some(k) && r'.lastCheckpoint == r.lastCheckpoint
    && r'.pending == r.pending && r'.echoes == r.echoes + {k} && r'.readies == r.readies + {k}
    && r'.anchors == r.anchors + {k} && r'.adopted == r.adopted + {k} && r'.led == r.led && r'.changes == r.changes
    && r'.preprepares == r.preprepares && r'.prepares == r.prepares && r'.delivered == r.delivered
  }

  /** The replicas of `x`, with the faulty one a quorum, go through such an epoch. */
  lemma Settle(ci: nat, j: Joint, x: map<NodeId, Content>, k: NewEpochConfig) returns (j': Joint)
    requires ci > 0 && At(ci, j) && x.Keys <= j.chain.Keys && IsQuorum(Four(ci), x.Keys + {3})
    requires k.finalPreprepares == [] && forall i :: i in x ==> Hearing(ci, j.chain[i], x[i], k)
    requires forall i :: i in x ==> j.chain[i].lastCheckpoint == 0
    requires FromLeader(Four(ci), FAULTY, j.chain, k) && Justified(Four(ci), FAULTY, j.chain, k)
    ensures At(ci, j') && Moved(j, j', x.Keys)
    ensures forall i :: i in x ==> AtWork(j.chain[i], j'.chain[i], k)
    ensures forall i :: i in x ==> && Reads(j'.chain[i].log, x[i].(tag := k.config.number))
                                   && KeepsN(j.chain[i].log, j'.chain[i].log) && HasN(j'.chain[i].log, 1)
  {
    hide At;
    hide Reads;
    hide KeepsN;
    hide HasN;
    hide Justified;
    hide FromLeader;
    hide IsQuorum;
    hide NetworkGrows;
    hide EchoOf;
    hide AtWork;
    var j1 := QuietEchoes(ci, j, x, k);
    hide Hearing;
    forall i | i in x ensures QuietlyEchoed(j.chain[i], j1.chain[i], k) {
    }
    j' := Starting(ci, j1, x.Keys, k);
    MovedOn(j, j1, j', x.Keys);
    forall i | i in x ensures AtWork(j.chain[i], j'.chain[i], k) {
      QuietReplica(j.chain[i], j1.chain[i], j'.chain[i], k);
    }
  }

  lemma QuietEchoes(ci: nat, j: Joint, x: map<NodeId, Content>, k: NewEpochConfig) returns (j': Joint)
    requires ci > 0 && At(ci, j) && x.Keys <= j.chain.Keys
    requires k.finalPreprepares == [] && forall i :: i in x ==> Hearing(ci, j.chain[i], x[i], k)
    requires forall i :: i in x ==> j.chain[i].lastCheckpoint == 0
    requires FromLeader(Four(ci), FAULTY, j.chain, k) && Justified(Four(ci), FAULTY, j.chain, k)
    ensures At(ci, j') && Moved(j, j', x.Keys)
    ensures forall i :: i in x ==> QuietlyEchoed(j.chain[i], j'.chain[i], k)
    ensures forall i :: i in x ==> && Reads(j'.chain[i].log, x[i].(tag := k.config.number))
                                   && KeepsN(j.chain[i].log, j'.chain[i].log) && HasN(j'.chain[i].log, 1)
  {
    hide At;
    hide Reads;
    hide KeepsN;
    hide HasN;
    hide Justified;
    hide FromLeader;
    hide EchoLog;
    hide CarriedVotes;
    hide NetworkGrows;
    j' := Echoes(ci, j, x, k);
    forall i | i in x ensures EchoedContent(x[i], k) == x[i].(tag := k.config.number) {
      assert x[i].preprepared + CarriedEntries(k, 0) == x[i].preprepared;
    }
  }

  ghost predicate QuietlyEchoed(r: Replica, r': Replica, k: NewEpochConfig) {
    EchoOf(r, r', k) && r.epoch == k.config.number && r.lastCheckpoint == End(k)
  }

  /** From echoing to working, for replicas whose epoch carries nothing over. */
  lemma Starting(ci: nat, j: Joint, m: set<NodeId>, k: NewEpochConfig) returns (j': Joint)
    requires ci > 0 && At(ci, j) && m <= j.chain.Keys && IsQuorum(Four(ci), m + {3}) && k.finalPreprepares == []
    requires forall i :: i in m ==> exists r :: QuietlyEchoed(r, j.chain[i], k)
    ensures At(ci, j') && Moved(j, j', m) && forall i :: i in m ==> Worked(j.chain[i], j'.chain[i], k)
  {
    hide At;
    hide IsQuorum;
    hide NetworkGrows;
    hide ReadyLog;
    hide CarriedVotes;
    forall i | i in m
      ensures k in j.chain[i].echoes && Prepared4(ci, j.chain[i], k) && j.chain[i].echoed == Some(k)
      ensures j.chain[i].lastCheckpoint == End(k)
    {
      var r :| QuietlyEchoed(r, j.chain[i], k);
    }
    hide QuietlyEchoed;
    var j1 := ReadyOn(ci, j, m, k, m + {3});
    var j2 := DeliverOn(ci, j1, m, k, m + {3});
    j' := StartWork(ci, j2, m);
    MovedOn(j, j1, j2, m);
    MovedOn(j, j2, j', m);
  }

  ghost predicate Worked(r: Replica, r': Replica, k: NewEpochConfig) {
    var r1 := ReadiedState(r, k);
    r' == r1.(phase := Active, adopted := r1.adopted + {k}, delivered := r1.delivered + Commits(r1))
  }

  /** The fields of a replica after echoing `k`. */
  ghost predicate EchoOf(r: Replica, r': Replica, k: NewEpochConfig) {
    r' == r.(log := r'.log, phase := Echoed, echoed := Some(k), echoes := r.echoes + {k},
             preprepares := r.preprepares + CarriedVotes(k, |k.finalPreprepares|))
  }

  lemma QuietReplica(r: Replica, r1: Replica, r2: Replica, k: NewEpochConfig)
    requires EchoOf(r, r1, k) && Worked(r1, r2, k) && k.finalPreprepares == [] && r.epoch == k.config.number
    ensures AtWork(r, r2, k) && r2.log == r1.log
  {
    NoneCarried(k);
    hide CarriedVotes;
    assert Above({}, r1.lastCheckpoint) == {};
    assert r.preprepares + {} == r.preprepares && r.prepares + {} == r.prepares && r.delivered + {} == r.delivered;
  }

  lemma MovedOn(j: Joint, j1: Joint, j2: Joint, q: set<NodeId>)
    requires Moved(j, j1, q) && Moved(j1, j2, q)
    ensures Moved(j, j2, q)
  {
    hide Grows;
    assert j1.chain.Keys == j.chain.Keys;
    GrowsOn(j.chain, j1.chain, j2.chain);
  }

  lemma MovedGrows(j: Joint, j': Joint, q: set<NodeId>)
    requires Moved(j, j', q)
    ensures NetworkGrows(j.chain, j'.chain)
  {
  }

  const FIRST := Config(1, [])

  /** A correct node in the first epoch, before any sequence is assigned. */
  ghost predicate InFirst(r: Replica) {
    && r.phase == Active && r.epoch == 1 && r.echoed == Some(FIRST) && r.lastCheckpoint == 0 && !r.pending
    && r.preprepares == {} && r.prepares == {} && r.delivered == {} && r.echoes == {FIRST} && r.readies == {FIRST}
    && r.anchors == {FIRST} && r.adopted == {FIRST} && r.led <= {FIRST} && Reads(r.log, BLANK.(tag := 1)) && HasN(r.log, 1)
  }

  function All(x: Content): map<NodeId, Content> {
    map[0 := x, 1 := x, 2 := x]
  }

  lemma GenesisFacts()
    ensures All(BLANK).Keys == {0, 1, 2} && forall i :: i in All(BLANK) ==> All(BLANK)[i] == BLANK
    ensures BLANK.checkpoints == [ZERO] && BLANK.prepared == []
    ensures FIRST == Config(1, []) && FIRST.config.number == 1 && FIRST.config.leaders == [0, 1, 2, 3]
  {
  }

  lemma GenesisLeaves()
    ensures MayLeave(Initial(0, GENESIS), BLANK, 1)
  {
    GenesisReads();
    hide Reads;
  }

  lemma GenesisChanged(ci: nat)
    ensures
      var r := Changed(Initial(0, GENESIS), BLANK, 1);
      && r.phase == Changing && r.epoch == 1 && r.led == {} && 1 in r.changes && r.changes[1] == ChangeFor(BLANK, 1)
  {
  }

  lemma MovedStays(j: Joint, j': Joint, q: set<NodeId>, i: NodeId)
    requires Moved(j, j', q) && i in j.chain
    ensures i in j'.chain && (i !in q ==> j'.chain[i] == j.chain[i])
  {
  }

  lemma LedKeeps(r: Replica, k: NewEpochConfig)
    ensures LedState(r, k) == r.(led := r.led + {k})
  {
  }

  lemma OfferedFirst(ci: nat, r: Replica)
    requires r == Changed(Initial(0, GENESIS), BLANK, 1) || r == LedState(Changed(Initial(0, GENESIS), BLANK, 1), FIRST)
    requires ci > 0 && Reads(r.log, BLANK)
    ensures Hearing(ci, r, BLANK, FIRST) && Joined(r)
  {
    hide Reads;
  }

  lemma FirstOffered(ci: nat) returns (j: Joint)
    requires ci > 0
    ensures At(ci, j) && j.phases == map[]
    ensures FromLeader(Four(ci), FAULTY, j.chain, FIRST) && Justified(Four(ci), FAULTY, j.chain, FIRST)
    ensures forall i :: i in j.chain ==> Hearing(ci, j.chain[i], BLANK, FIRST) && Joined(j.chain[i])
  {
    hide *;
    var x := All(BLANK);
    GenesisFacts();
    var j0 := Genesis(ci);
    GenesisLeaves();
    InChain(ci, j0);
    var j1 := Leave(ci, j0, x, 1);
    InChain(ci, j1);
    GenesisChanged(ci);
    QuietJustified(ci, j1.chain, BLANK, BLANK, 1);
    j := LeadEpoch(ci, j1, 1, FIRST);
    InChain(ci, j);
    MovedPhases(j0, j1, x.Keys);
    MovedPhases(j1, j, {1});
    forall i | i in j.chain ensures Hearing(ci, j.chain[i], BLANK, FIRST) && Joined(j.chain[i]) {
      MovedStays(j1, j, {1}, i);
      LedKeeps(j1.chain[1], FIRST);
      OfferedFirst(ci, j.chain[i]);
    }
  }

  /** It has joined the network and done nothing else. */
  ghost predicate Joined(r: Replica) {
    && r.epoch == 1 && r.lastCheckpoint == 0 && !r.pending && r.led <= {FIRST}
    && r.preprepares == {} && r.prepares == {} && r.delivered == {} && r.echoes == {} && r.readies == {}
    && r.anchors == {} && r.adopted == {}
  }

  lemma FirstEpoch(ci: nat) returns (j: Joint)
    requires ci > 0
    ensures At(ci, j) && j.phases == map[] && forall i :: i in j.chain ==> InFirst(j.chain[i])
  {
    hide At;
    hide Reads;
    hide HasN;
    hide KeepsN;
    hide Justified;
    hide FromLeader;
    hide Hearing;
    hide Joined;
    hide Moved;
    hide AtWork;
    hide InFirst;
    hide Four;
    hide IsQuorum;
    var x := All(BLANK);
    var j0 := FirstOffered(ci);
    InChain(ci, j0);
    Everyone(ci);
    assert x.Keys + {3} == {0, 1, 2, 3};
    JoinedFresh(j0);
    j := Settle(ci, j0, x, FIRST);
    InChain(ci, j);
    MovedPhases(j0, j, x.Keys);
    AllFirst(j0, j);
  }

  lemma JoinedFresh(j: Joint)
    requires forall i :: i in j.chain ==> Joined(j.chain[i])
    ensures forall i :: i in j.chain ==> j.chain[i].lastCheckpoint == 0
  {
  }

  lemma MovedPhases(j: Joint, j': Joint, q: set<NodeId>)
    requires Moved(j, j', q)
    ensures j'.phases == j.phases
  {
  }

  lemma AllFirst(j0: Joint, j: Joint)
    requires j0.chain.Keys == j.chain.Keys == {0, 1, 2}
    requires forall i :: i in j.chain ==> && Joined(j0.chain[i]) && AtWork(j0.chain[i], j.chain[i], FIRST)
                                          && Reads(j.chain[i].log, BLANK.(tag := 1)) && HasN(j.chain[i].log, 1)
    ensures forall i :: i in j.chain ==> InFirst(j.chain[i])
  {
    hide Joined;
    hide AtWork;
    hide Reads;
    hide HasN;
    hide InFirst;
    forall i | i in j.chain ensures InFirst(j.chain[i]) {
      FirstReplica(j0.chain[i], j.chain[i]);
    }
  }

  lemma FirstReplica(r: Replica, r': Replica)
    requires Joined(r) && AtWork(r, r', FIRST) && Reads(r'.log, BLANK.(tag := FIRST.config.number)) && HasN(r'.log, 1)
    ensures InFirst(r')
  {
    hide Reads;
    hide HasN;
  }

  // ---------------------------------------------------------------- slots

  /** A replica at work in the epoch of `k`, with the interval of `s` opened. */
  lemma MayWork(ci: nat, j: Joint, i: NodeId, k: NewEpochConfig, s: nat, n: nat)
    requires ci > 0 && At(ci, j) && i in j.chain
    requires var r := j.chain[i];
             r.phase == Active && r.epoch == k.config.number && r.echoed == Some(k) && k in r.adopted
             && s > End(k) && s > r.lastCheckpoint && HasN(r.log, n)
    requires n >= 1 && Aligned(n - 1, ci) && n <= s < n + ci
    ensures TakesPart(Four(ci), j.chain[i], Slot(k.config.number, s))
  {
    hide At;
    hide JointInv;
    hide Inv;
    hide HasN;
    hide Opened;
    AtInv(ci, j);
    IntervalOpens(j.chain[i].log, ci, n, s);
    forall k' | k' in j.chain[i].readies && k'.config.number == k.config.number ensures k' == k {
      AdoptedReadied(Four(ci), FAULTY, j.chain, i, i, k, k');
    }
  }

  /** The one bucket goes to the leader of the epoch. */
  lemma LeaderOwns(ci: nat, g: Network, i: NodeId, e: nat, digests: seq<Digest>, s: nat)
    requires i in g && Config(e, digests) in g[i].adopted
    ensures Owns(Four(ci), g, Slot(e, s), e % 4) && e % 4 in NodeSet(Four(ci))
  {
    var c, k := Four(ci), Config(e, digests);
    assert c.nodes[e % 4] == e % 4;
    assert Buckets.Bucket(s, 1) == 0;
    assert OwnedIn(c, k, Slot(e, s), e % 4);
  }

  /** In the first epoch everyone takes part in slot 1, which node 1 owns. */
  lemma FirstSlot(ci: nat, j: Joint)
    requires ci > 0 && At(ci, j) && forall i :: i in j.chain ==> InFirst(j.chain[i])
    ensures Owns(Four(ci), j.chain, Slot(1, 1), 1) && 1 in NodeSet(Four(ci))
    ensures forall i :: i in j.chain ==> TakesPart(Four(ci), j.chain[i], Slot(1, 1))
  {
    hide Reached;
    hide TakesPart;
    hide Owns;
    hide Reads;
    hide HasN;
    LeaderOwns(ci, j.chain, 0, 1, [], 1);
    forall i | i in j.chain ensures TakesPart(Four(ci), j.chain[i], Slot(1, 1)) {
      MayWork(ci, j, i, FIRST, 1, 1);
    }
  }

  lemma MayOpenSecond(g: Network, i: NodeId)
    requires i in g && InFirst(g[i])
    ensures var r := OpenedState(g[i], 2, FIRST.config);
            MayMove(Four(1), FAULTY, g, i, r, Open(2, FIRST.config)) && InFirst(r) && HasN(r.log, 2)
  {
    hide Reads;
    hide HasN;
    var r := g[i];
    MayOpenInterval(Four(1), r, 2, FIRST.config);
    OpenReads(r, BLANK.(tag := 1), 2, FIRST.config);
  }

  /** With an interval of 1 the window of the first epoch reaches to 2. */
  lemma FirstTwoOpened() returns (j: Joint)
    ensures At(1, j) && j.phases == map[] && forall i :: i in j.chain ==> InFirst(j.chain[i]) && HasN(j.chain[i].log, 2)
  {
    hide At;
    hide HasN;
    hide InFirst;
    hide MayMove;
    hide OpenedState;
    hide NetworkGrows;
    var j0 := FirstEpoch(1);
    InChain(1, j0);
    var after := map i | i in j0.chain :: OpenedState(j0.chain[i], 2, FIRST.config);
    forall i | i in after ensures MayMove(Four(1), FAULTY, j0.chain, i, after[i], Open(2, FIRST.config)) {
      MayOpenSecond(j0.chain, i);
    }
    j := Go(1, j0, after, Open(2, FIRST.config));
    forall i | i in j.chain ensures InFirst(j.chain[i]) && HasN(j.chain[i].log, 2) {
      MayOpenSecond(j0.chain, i);
    }
  }

  /** A replica that voted for the batch at `s`, and one that prepared it too. */
  function VotedState(r: Replica, s: nat, batch: seq<RequestAck>): Replica {
    ProposedState(r, s, HashBatch(batch), batch)
  }

  function AssignedState(r: Replica, s: nat, batch: seq<RequestAck>): Replica {
    PreparedState(VotedState(r, s, batch), s, HashBatch(batch))
  }

  lemma VotedReads(r: Replica, x: Content, s: nat, batch: seq<RequestAck>)
    requires Reads(r.log, x) && x.tag == r.epoch
    ensures Reads(VotedState(r, s, batch).log, x.(preprepared := x.preprepared + [SetEntry(r.epoch, s, HashBatch(batch))]))
    ensures KeepsN(r.log, VotedState(r, s, batch).log)
  {
    hide Reads;
    hide HasN;
    hide HashBatch;
    ReadsAppend(r.log, QEntry(s, HashBatch(batch), batch), x);
    KeepsIntervals(r.log, QEntry(s, HashBatch(batch), batch));
  }

  lemma AssignedReads(r: Replica, x: Content, s: nat, batch: seq<RequestAck>)
    requires Reads(r.log, x) && x.tag == r.epoch && !Mentions(x.prepared, s)
    ensures
      var entry := SetEntry(r.epoch, s, HashBatch(batch));
      Reads(AssignedState(r, s, batch).log, x.(prepared := x.prepared + [entry], preprepared := x.preprepared + [entry]))
    ensures KeepsN(r.log, AssignedState(r, s, batch).log)
  {
    hide Reads;
    hide HasN;
    hide HashBatch;
    VotedReads(r, x, s, batch);
    var v, entry := VotedState(r, s, batch), PEntry(s, HashBatch(batch));
    ReadsAppend(v.log, entry, x.(preprepared := x.preprepared + [SetEntry(r.epoch, s, HashBatch(batch))]));
    KeepsIntervals(v.log, entry);
  }

  lemma OnlyPreprepared(ci: nat, owner: NodeId, net: TP.Network, i: NodeId, batch: seq<RequestAck>)
    requires ci > 0 && TP.Inv(Four(ci), FAULTY, owner, net) && i in net && SR.VotedFor(net[i], owner, batch)
    ensures net[i].seq_.phase == S.Preprepared
  {
    hide TP.Inv;
    hide HashBatch;
    SR.NodeInv(Four(ci), FAULTY, owner, net, i);
    hide TP.CommitInv;
    var r, d := net[i], HashBatch(batch);
    assert TP.TalliedFor(r, d);
    assert TP.Voters(r.seq_.choices, d) == {owner};
    FourFacts(ci);
  }

  lemma LoggedVote(r: Replica, slot: Slot, s: S.SeqState, batch: seq<RequestAck>)
    requires s.digest == HashBatch(batch) && s.batch == batch && AtLeast(s, S.Preprepared)
    ensures Logged(r, slot, s) ==
            if AtLeast(s, S.Prepared) then AssignedState(r, slot.seqNo, batch) else VotedState(r, slot.seqNo, batch)
  {
    hide HashBatch;
  }

  /** Only a new slot was added, and nothing said was unsaid. */
  ghost predicate Added(j: Joint, j': Joint, slot: Slot, q: set<NodeId>) {
    && slot !in j.phases && slot in j'.phases && j'.phases.Keys == j.phases.Keys + {slot}
    && (forall other :: other in j.phases ==> j'.phases[other] == j.phases[other])
    && j'.chain.Keys == j.chain.Keys && NetworkGrows(j.chain, j'.chain)
    && forall i :: i in j.chain && i !in q ==> j'.chain[i] == j.chain[i]
  }

  lemma AddSlot(ci: nat, j: Joint, slot: Slot, owner: NodeId, q: set<NodeId>, net: TP.Network) returns (j': Joint)
    requires ci > 0 && At(ci, j) && slot !in j.phases && owner in NodeSet(Four(ci)) && Owns(Four(ci), j.chain, slot, owner)
    requires forall i :: i in q && i in j.chain ==> TakesPart(Four(ci), j.chain[i], slot)
    requires SR.Reaches(Four(ci), FAULTY, owner, q, FreshNet(Four(ci), j.chain, owner), net)
    requires net.Keys == j.chain.Keys && forall i :: i in net && i !in q ==> net[i] == TP.Fresh(Four(ci), owner, i)
    ensures At(ci, j') && Added(j, j', slot, q) && j'.phases[slot] == Instance(owner, net)
    ensures forall i :: i in net ==> j'.chain[i] == Logged(j.chain[i], slot, net[i].seq_)
  {
    hide Reached;
    hide JointInv;
    hide Inv;
    hide TakesPart;
    hide Owns;
    hide Reaches;
    hide SR.Reaches;
    hide NetworkGrows;
    hide FreshNet;
    hide Four;
    AtInv(ci, j);
    LiftSlot(Four(ci), FAULTY, j, slot, owner, q, net);
    j' := InSlot(j, slot, owner, net);
    Onwards(ci, j, j');
  }

  /** The correct members of `q` vote for the batch, and those of `p` prepare it. */
  lemma PrepareSlot(ci: nat, j: Joint, slot: Slot, q: set<NodeId>, p: set<NodeId>, batch: seq<RequestAck>) returns (j': Joint)
    requires ci > 0 && At(ci, j) && slot !in j.phases && batch != [] && IsQuorum(Four(ci), q) && p <= q
    requires var owner := slot.epoch % 4;
             Owns(Four(ci), j.chain, slot, owner) && owner in NodeSet(Four(ci)) && (owner in q || owner == 3)
    requires forall i :: i in q && i in j.chain ==> TakesPart(Four(ci), j.chain[i], slot)
    ensures At(ci, j') && Added(j, j', slot, q)
    ensures forall i :: i in q && i in j.chain ==>
              j'.chain[i] == if i in p then AssignedState(j.chain[i], slot.seqNo, batch)
                             else VotedState(j.chain[i], slot.seqNo, batch)
  {
    hide *;
    OneFaulty();
    FourFacts(ci);
    InChain(ci, j);
    var c, owner := Four(ci), slot.epoch % 4;
    FreshKeys(c, j.chain, owner);
    var net := SR.QuorumPrepares(c, FAULTY, owner, q, FreshNet(c, j.chain, owner), p, batch);
    j' := AddSlot(ci, j, slot, owner, q, net);
    InChain(ci, j');
    forall i | i in q && i in j.chain
      ensures j'.chain[i] == if i in p then AssignedState(j.chain[i], slot.seqNo, batch)
                             else VotedState(j.chain[i], slot.seqNo, batch)
    {
      if i in p {
        PreparedLogs(j.chain[i], slot, net[i], owner, q, batch);
      } else {
        VotedLogs(ci, j.chain[i], slot, owner, net, i, batch);
      }
    }
  }

  lemma PreparedLogs(r: Replica, slot: Slot, x: TP.Replica, owner: NodeId, q: set<NodeId>, batch: seq<RequestAck>)
    requires SR.PreparedBy(x, owner, batch, q)
    ensures Logged(r, slot, x.seq_) == AssignedState(r, slot.seqNo, batch)
  {
    hide HashBatch;
    LoggedVote(r, slot, x.seq_, batch);
  }

  lemma VotedLogs(ci: nat, r: Replica, slot: Slot, owner: NodeId, net: TP.Network, i: NodeId, batch: seq<RequestAck>)
    requires ci > 0 && TP.Inv(Four(ci), FAULTY, owner, net) && i in net && SR.VotedFor(net[i], owner, batch)
    ensures Logged(r, slot, net[i].seq_) == VotedState(r, slot.seqNo, batch)
  {
    hide TP.Inv;
    hide HashBatch;
    OnlyPreprepared(ci, owner, net, i, batch);
    LoggedVote(r, slot, net[i].seq_, batch);
  }

  /** The correct members of `q` commit the batch. */
  lemma CommitSlot(ci: nat, j: Joint, slot: Slot, q: set<NodeId>, batch: seq<RequestAck>) returns (j': Joint)
    requires ci > 0 && At(ci, j) && slot !in j.phases && batch != [] && IsQuorum(Four(ci), q)
    requires var owner := slot.epoch % 4;
             Owns(Four(ci), j.chain, slot, owner) && owner in NodeSet(Four(ci)) && (owner in q || owner == 3)
    requires forall i :: i in q && i in j.chain ==> TakesPart(Four(ci), j.chain[i], slot)
    ensures At(ci, j') && Added(j, j', slot, q)
    ensures forall i :: i in q && i in j.chain ==> j'.chain[i] == AssignedState(j.chain[i], slot.seqNo, batch)
    ensures forall i :: i in q && i in j.chain ==> ByPhases(j', i, slot.epoch, slot.seqNo, HashBatch(batch))
  {
    hide *;
    OneFaulty();
    FourFacts(ci);
    InChain(ci, j);
    var c, owner := Four(ci), slot.epoch % 4;
    FreshKeys(c, j.chain, owner);
    var net := SR.QuorumCommits(c, FAULTY, owner, q, FreshNet(c, j.chain, owner), batch);
    j' := AddSlot(ci, j, slot, owner, q, net);
    InChain(ci, j');
    forall i | i in q && i in j.chain
      ensures j'.chain[i] == AssignedState(j.chain[i], slot.seqNo, batch)
      ensures ByPhases(j', i, slot.epoch, slot.seqNo, HashBatch(batch))
    {
      CommittedLogs(j, j', slot, q, i, batch);
    }
  }

  lemma CommittedLogs(j: Joint, j': Joint, slot: Slot, q: set<NodeId>, i: NodeId, batch: seq<RequestAck>)
    requires Added(j, j', slot, q) && i in j.chain && i in j'.phases[slot].net
    requires SR.CommittedFor(j'.phases[slot].net[i], batch)
    ensures Logged(j.chain[i], slot, j'.phases[slot].net[i].seq_) == AssignedState(j.chain[i], slot.seqNo, batch)
    ensures ByPhases(j', i, slot.epoch, slot.seqNo, HashBatch(batch))
  {
    hide HashBatch;
    hide NetworkGrows;
    assert Slot(slot.epoch, slot.seqNo) == slot;
    LoggedVote(j.chain[i], slot, j'.phases[slot].net[i].seq_, batch);
  }

  /** A replica that has committed everything up to its next checkpoint takes it. */
  lemma CheckpointNext(ci: nat, j: Joint, i: NodeId, value: nat) returns (j': Joint)
    requires ci > 0 && At(ci, j) && i in j.chain && (j.chain[i].phase == Delivered || j.chain[i].phase == Active)
    requires !j.chain[i].pending && IntervalCommitted(Four(ci), j, i)
    ensures At(ci, j') && Moved(j, j', {i})
    ensures j'.chain[i] == CheckpointedState(Four(ci), RequestedState(j.chain[i]), value)
  {
    hide Reached;
    hide JointInv;
    hide Inv;
    hide Reaches;
    hide NetworkGrows;
    hide IntervalCommitted;
    hide CheckpointedState;
    hide Four;
    AtInv(ci, j);
    j' := Checkpoints(Four(ci), FAULTY, j, i, value);
    Onwards(ci, j, j');
  }

  lemma ReachedBy(ci: nat, j: Joint) returns (run: seq<Joint>)
    requires At(ci, j)
    ensures IsJointRun(Four(ci), FAULTY, run, 0, GENESIS) && run[|run| - 1] == j
  {
    hide IsJointRun;
    run :| RunTo(ci, run, j);
  }

  lemma Pairs(ci: nat)
    requires ci > 0
    ensures IsQuorum(Four(ci), {0, 1, 2}) && IsQuorum(Four(ci), {0, 1, 3}) && IsQuorum(Four(ci), {1, 2, 3})
    ensures {0, 3} <= NodeSet(Four(ci)) && {0, 1} <= NodeSet(Four(ci))
  {
    FourFacts(ci);
  }

  lemma Everyone(ci: nat)
    requires ci > 0
    ensures IsQuorum(Four(ci), {0, 1, 2, 3})
  {
    FourFacts(ci);
    assert |{0, 1, 2, 3}| == 4;
  }
}
