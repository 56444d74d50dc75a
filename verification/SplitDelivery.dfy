/** One delivered configuration, two committed digests: on delivery a node commits what it echoed
    itself, which an equivocating leader can make different from what the others echoed. */
module SplitDelivery {
  import opened Types
  import opened Quorums
  import opened Intervals
  import opened EpochChanges
  import opened NewEpochConfigs
  import opened WriteAheadLog
  import opened ReplicaVotes
  import opened EpochChain
  import opened JointRuns
  import opened JointPaths
  import opened Scenarios
  import opened FourNodes

  // ---------------------------------------------------------------- epoch 1: two sequences are voted for

  function TwoVotes(d: Digest, d2: Digest): seq<SetEntry> {
    [SetEntry(1, 1, d), SetEntry(1, 2, d2)]
  }

  /** Nodes 0 and 1 have voted for `d` at 1 and `d2` at 2. */
  function Readings(d: Digest, d2: Digest): map<NodeId, Content> {
    var x := Content(1, [ZERO], [], TwoVotes(d, d2));
    map[0 := x, 1 := x, 2 := BLANK.(tag := 1)]
  }

  /** A node of epoch 1, with its window opened. */
  ghost predicate Working(r: Replica, x: Content) {
    && Reads(r.log, x) && HasN(r.log, 1) && HasN(r.log, 2) && r.epoch == 1 && !r.pending && r.lastCheckpoint == 0
    && r.phase == Active && r.echoed == Some(FIRST) && FIRST in r.adopted && r.echoes == {FIRST}
  }

  lemma FirstWorks(r: Replica)
    requires InFirst(r) && HasN(r.log, 2)
    ensures Working(r, BLANK.(tag := 1))
  {
    hide Reads;
    hide HasN;
  }

  lemma VoterWorks(r: Replica, x: Content, s: nat, batch: seq<RequestAck>)
    requires Working(r, x) && x.tag == 1
    ensures Working(VotedState(r, s, batch), x.(preprepared := x.preprepared + [SetEntry(1, s, HashBatch(batch))]))
  {
    hide Reads;
    hide HasN;
    hide HashBatch;
    VotedReads(r, x, s, batch);
  }

  lemma WorkerTakesPart(j: Joint, i: NodeId, x: Content, s: nat)
    requires At(1, j) && i in j.chain && Working(j.chain[i], x) && (s == 1 || s == 2)
    ensures TakesPart(Four(1), j.chain[i], Slot(1, s)) && Owns(Four(1), j.chain, Slot(1, s), 1) && 1 in NodeSet(Four(1))
  {
    hide At;
    hide Reads;
    hide HasN;
    hide TakesPart;
    hide Owns;
    MayWork(1, j, i, FIRST, s, s);
    LeaderOwns(1, j.chain, i, 1, [], s);
  }

  /** Nodes 0 and 1 vote at `s`. */
  lemma VoteAtNext(j: Joint, x: map<NodeId, Content>, s: nat, batch: seq<RequestAck>) returns (j': Joint)
    requires At(1, j) && x.Keys == j.chain.Keys && (s == 1 || s == 2) && Slot(1, s) !in j.phases && batch != []
    requires forall i :: i in x ==> Working(j.chain[i], x[i]) && x[i].tag == 1
    ensures At(1, j') && j'.phases.Keys == j.phases.Keys + {Slot(1, s)}
    ensures forall i :: i in x ==>
              Working(j'.chain[i], if i == 2 then x[i]
                                   else x[i].(preprepared := x[i].preprepared + [SetEntry(1, s, HashBatch(batch))]))
  {
    hide At;
    hide Working;
    hide TakesPart;
    hide Owns;
    hide NetworkGrows;
    hide VotedState;
    hide HashBatch;
    hide IsQuorum;
    hide NodeSet;
    hide Four;
    Pairs(1);
    InChain(1, j);
    forall i | i in j.chain
      ensures TakesPart(Four(1), j.chain[i], Slot(1, s)) && Owns(Four(1), j.chain, Slot(1, s), 1) && 1 in NodeSet(Four(1))
    {
      WorkerTakesPart(j, i, x[i], s);
    }
    j' := PrepareSlot(1, j, Slot(1, s), {0, 1, 3}, {}, batch);
    VoterWorks(j.chain[0], x[0], s, batch);
    VoterWorks(j.chain[1], x[1], s, batch);
  }

  lemma AllVote(batch: seq<RequestAck>, batch2: seq<RequestAck>) returns (j: Joint)
    requires batch != [] && batch2 != []
    ensures At(1, j) && j.chain.Keys == {0, 1, 2}
    ensures forall i :: i in j.chain ==> Working(j.chain[i], Readings(HashBatch(batch), HashBatch(batch2))[i])
  {
    hide At;
    hide HasN;
    hide InFirst;
    hide Working;
    hide HashBatch;
    var d, d2 := HashBatch(batch), HashBatch(batch2);
    var j0 := FirstTwoOpened();
    InChain(1, j0);
    forall i | i in j0.chain ensures Working(j0.chain[i], BLANK.(tag := 1)) {
      FirstWorks(j0.chain[i]);
    }
    var x, entry := BLANK.(tag := 1), SetEntry(1, 1, d);
    assert x.preprepared + [entry] == [entry];
    var y := x.(preprepared := [entry]);
    var j1 := VoteAtNext(j0, All(x), 1, batch);
    InChain(1, j1);
    assert y.preprepared + [SetEntry(1, 2, d2)] == TwoVotes(d, d2);
    j := VoteAtNext(j1, map[0 := y, 1 := y, 2 := x], 2, batch2);
    InChain(1, j);
  }

  // ---------------------------------------------------------------- epoch 3: two configurations

  function Full(d: Digest, d2: Digest): NewEpochConfig {
    Config(3, [d, d2])
  }

  function Gap(d2: Digest): NewEpochConfig {
    Config(3, [NullDigest, d2])
  }

  /** A node that has left for epoch 3. */
  ghost predicate Left(r: Replica, x: Content) {
    && Reads(r.log, x) && HasN(r.log, 1) && HasN(r.log, 2) && r.epoch == 3 && !r.pending && r.lastCheckpoint == 0
    && r.phase == Changing && 3 in r.changes && r.changes[3] == ChangeFor(x, 3) && r.echoes == {FIRST}
  }

  lemma MayLeaveTwice(r: Replica, x: Content)
    requires Working(r, x) && x.tag == 1
    ensures MayLeave(r, x, 2)
    ensures forall r1 :: r1 == Changed(r, x, 2) && Reads(r1.log, x) ==> MayLeave(r1, x, 3)
  {
    hide Reads;
    hide HasN;
  }

  lemma HasLeft(r: Replica, r1: Replica, r2: Replica, x: Content)
    requires Working(r, x) && x.tag == 1 && r1 == Changed(r, x, 2) && r2 == Changed(r1, x, 3) && Reads(r2.log, x)
    requires KeepsN(r.log, r1.log) && KeepsN(r1.log, r2.log)
    ensures Left(r2, x)
  {
    hide Reads;
    hide HasN;
  }

  /** Epoch 2 does not come about, and all leave for epoch 3. */
  lemma AllLeave(batch: seq<RequestAck>, batch2: seq<RequestAck>) returns (j: Joint)
    requires batch != [] && batch2 != []
    ensures At(1, j) && j.chain.Keys == {0, 1, 2}
    ensures forall i :: i in j.chain ==> Left(j.chain[i], Readings(HashBatch(batch), HashBatch(batch2))[i])
  {
    hide At;
    hide Reads;
    hide Working;
    hide Left;
    hide MayLeave;
    hide Changed;
    hide KeepsN;
    hide NetworkGrows;
    hide HashBatch;
    var x := Readings(HashBatch(batch), HashBatch(batch2));
    var j0 := AllVote(batch, batch2);
    forall i | i in x ensures MayLeave(j0.chain[i], x[i], 2) {
      MayLeaveTwice(j0.chain[i], x[i]);
    }
    var j1 := Leave(1, j0, x, 2);
    forall i | i in x ensures MayLeave(j1.chain[i], x[i], 3) {
      MayLeaveTwice(j0.chain[i], x[i]);
    }
    j := Leave(1, j1, x, 3);
    forall i | i in x ensures Left(j.chain[i], x[i]) {
      HasLeft(j0.chain[i], j1.chain[i], j.chain[i], x[i]);
    }
  }

  /** What the faulty node claims: P entries for both sequences, or for the second only. */
  function Claim(both: bool, d: Digest, d2: Digest): EpochChange {
    EpochChange(3, [ZERO], if both then TwoVotes(d, d2) else [SetEntry(1, 2, d2)], TwoVotes(d, d2))
  }

  lemma ClaimParsed(both: bool, d: Digest, d2: Digest)
    ensures
      var m := Parsed(Claim(both, d, d2));
      && m.underlying == Claim(both, d, d2) && m.lowWatermark == 0
      && (1 in m.pSet <==> both) && (both ==> m.pSet[1] == SetEntry(1, 1, d))
      && 2 in m.pSet && m.pSet[2] == SetEntry(1, 2, d2)
      && A2Vote(m, 1, SetEntry(1, 1, d)) && A2Vote(m, 2, SetEntry(1, 2, d2))
  {
    hide A2Vote;
    var m := Claim(both, d, d2);
    ParsedLow(m);
    ParsedPrepared(m, 1);
    assert m.qSet[0] == SetEntry(1, 1, d) && m.qSet[1] == SetEntry(1, 2, d2);
    ParsedVouches(m, SetEntry(1, 1, d));
    ParsedVouches(m, SetEntry(1, 2, d2));
    assert both ==> m.pSet[0] == SetEntry(1, 1, d) && m.pSet[1] == SetEntry(1, 2, d2);
    assert !both ==> m.pSet[0] == SetEntry(1, 2, d2);
    hide QIndex;
    hide Lowest;
    PIndexContent(m.pSet, 2, 1, d2);
    PIndexContent(m.pSet, 1, 1, d);
  }

  lemma VoterParsed(d: Digest, d2: Digest)
    ensures
      var m := Parsed(ChangeFor(Readings(d, d2)[1], 3));
      && m.underlying == ChangeFor(Readings(d, d2)[1], 3) && m.lowWatermark == 0 && m.pSet == map[]
      && A2Vote(m, 1, SetEntry(1, 1, d)) && A2Vote(m, 2, SetEntry(1, 2, d2))
  {
    hide A2Vote;
    var m := ChangeFor(Readings(d, d2)[1], 3);
    QuietParsed(Readings(d, d2)[1], 3);
    assert m.qSet[0] == SetEntry(1, 1, d) && m.qSet[1] == SetEntry(1, 2, d2);
    ParsedVouches(m, SetEntry(1, 1, d));
    ParsedVouches(m, SetEntry(1, 2, d2));
  }

  ghost function Received(both: bool, d: Digest, d2: Digest): Changes {
    map[1 := Parsed(ChangeFor(Readings(d, d2)[1], 3)), 2 := Parsed(ChangeFor(BLANK.(tag := 1), 3)),
        3 := Parsed(Claim(both, d, d2))]
  }

  lemma ReceivedFacts(both: bool, d: Digest, d2: Digest)
    ensures
      var ec := Received(both, d, d2);
      && FromZero(ec, 3) && ec.Keys == {1, 2, 3}
      && (forall i :: i in ec && 1 in ec[i].pSet ==> i == 3 && both && ec[i].pSet[1] == SetEntry(1, 1, d))
      && (forall i :: i in ec && 2 in ec[i].pSet ==> i == 3 && ec[i].pSet[2] == SetEntry(1, 2, d2))
      && 2 in ec[3].pSet && (both ==> 1 in ec[3].pSet)
      && A2Vote(ec[3], 1, SetEntry(1, 1, d)) && A2Vote(ec[3], 2, SetEntry(1, 2, d2))
      && A2Vote(ec[1], 1, SetEntry(1, 1, d)) && A2Vote(ec[1], 2, SetEntry(1, 2, d2))
  {
    hide Parsed;
    hide A2Vote;
    ClaimParsed(both, d, d2);
    VoterParsed(d, d2);
    QuietParsed(BLANK.(tag := 1), 3);
    assert Received(both, d, d2).Keys == {1, 2, 3};
  }

  /** Both configurations pass verification, each with its own message of the faulty node. */
  lemma BothJustified(both: bool, d: Digest, d2: Digest, g: Network)
    requires g.Keys == {0, 1, 2} && forall i :: i in g ==> Left(g[i], Readings(d, d2)[i])
    ensures Justified(Four(1), FAULTY, g, if both then Full(d, d2) else Gap(d2))
  {
    hide IsOrder;
    hide OutcomeInOrder;
    hide Genuine;
    hide CarryAt;
    hide A2Vote;
    hide Reads;
    hide HasN;
    var ec := Received(both, d, d2);
    ReceivedFacts(both, d, d2);
    ReceivedSent(both, d, d2, g);
    hide Received;
    hide Left;
    CarriesEntry(1, ec, 3, 2, SetEntry(1, 2, d2), 3, 1);
    if both {
      CarriesEntry(1, ec, 3, 1, SetEntry(1, 1, d), 3, 1);
      ChoosesPair(ec, 3, d, d2);
    } else {
      CarriesNothing(1, ec, 3, 1);
      ChoosesPair(ec, 3, NullDigest, d2);
    }
    IsGenuine(1, g, ec, 3);
    assert JustifiedBy(Four(1), FAULTY, g, if both then Full(d, d2) else Gap(d2), ec, Leaders(3), [ZERO]);
  }

  lemma ReceivedSent(both: bool, d: Digest, d2: Digest, g: Network)
    requires g.Keys == {0, 1, 2} && forall i :: i in g ==> Left(g[i], Readings(d, d2)[i])
    ensures forall i :: i in Received(both, d, d2) ==> Received(both, d, d2)[i] == Parsed(Received(both, d, d2)[i].underlying)
    ensures forall i :: i in Received(both, d, d2) ==> Sent(g, i, 3, Received(both, d, d2)[i].underlying)
  {
    hide PIndex;
    hide QIndex;
    hide Lowest;
    hide Reads;
    hide HasN;
    var ec := Received(both, d, d2);
    assert ec[1].underlying.checkpoints == [ZERO] && ec[2].underlying.checkpoints == [ZERO] && ec[3].underlying.checkpoints == [ZERO];
  }

  // ---------------------------------------------------------------- the faulty leader sends one to each side

  /** A node that echoed `k` in epoch 3. */
  ghost predicate Echoing(r: Replica, k: NewEpochConfig) {
    && r.phase == Echoed && r.epoch == 3 && r.lastCheckpoint == 0 && r.echoed == Some(k) && r.echoes == {FIRST, k}
    && HasN(r.log, 1) && HasN(r.log, 2)
  }

  lemma MayHear(r: Replica, x: Content, d: Digest, d2: Digest)
    requires Left(r, x) && x.tag == 1
    ensures Hearing(1, r, x, Full(d, d2)) && Hearing(1, r, x, Gap(d2))
  {
    hide Reads;
    hide HasN;
    assert SecondIntervalOpened(Four(1), r.log, Full(d, d2)) && SecondIntervalOpened(Four(1), r.log, Gap(d2));
  }

  lemma HasEchoed(r: Replica, r': Replica, x: Content, k: NewEpochConfig)
    requires Left(r, x) && r' == EchoedState(Four(1), r, k) && KeepsN(r.log, r'.log)
    ensures Echoing(r', k)
  {
    hide Reads;
    hide HasN;
    hide EchoLog;
    hide CarriedVotes;
  }

  /** Node 0 has echoed `Full`, the others `Gap`. */
  ghost predicate TwoEchoes(j: Joint, d: Digest, d2: Digest) {
    && j.chain.Keys == {0, 1, 2} && Echoing(j.chain[0], Full(d, d2))
    && Echoing(j.chain[1], Gap(d2)) && Echoing(j.chain[2], Gap(d2))
    && Justified(Four(1), FAULTY, j.chain, Full(d, d2)) && Justified(Four(1), FAULTY, j.chain, Gap(d2))
  }

  lemma BothEchoed(batch: seq<RequestAck>, batch2: seq<RequestAck>) returns (j: Joint)
    requires batch != [] && batch2 != []
    ensures At(1, j) && TwoEchoes(j, HashBatch(batch), HashBatch(batch2))
  {
    hide At;
    hide Reads;
    hide HasN;
    hide KeepsN;
    hide NetworkGrows;
    hide Justified;
    hide FromLeader;
    hide Left;
    hide Hearing;
    hide EchoedState;
    hide Echoing;
    hide HashBatch;
    hide Full;
    hide Gap;
    hide Four;
    var d, d2 := HashBatch(batch), HashBatch(batch2);
    var x := Readings(d, d2);
    var j0 := AllLeave(batch, batch2);
    BothJustified(true, d, d2, j0.chain);
    BothJustified(false, d, d2, j0.chain);
    forall i | i in x ensures Hearing(1, j0.chain[i], x[i], Full(d, d2)) && Hearing(1, j0.chain[i], x[i], Gap(d2)) {
      MayHear(j0.chain[i], x[i], d, d2);
    }
    InEpochThree(d, d2);
    FaultyLeads(1, j0.chain, Full(d, d2));
    var j1 := Echoes(1, j0, map[0 := x[0]], Full(d, d2));
    FaultyLeads(1, j1.chain, Gap(d2));
    StillJustified(Four(1), FAULTY, j0.chain, j1.chain, Full(d, d2));
    StillJustified(Four(1), FAULTY, j0.chain, j1.chain, Gap(d2));
    j := Echoes(1, j1, map[1 := x[1], 2 := x[2]], Gap(d2));
    StillJustified(Four(1), FAULTY, j1.chain, j.chain, Full(d, d2));
    StillJustified(Four(1), FAULTY, j1.chain, j.chain, Gap(d2));
    HasEchoed(j0.chain[0], j.chain[0], x[0], Full(d, d2));
    HasEchoed(j0.chain[1], j.chain[1], x[1], Gap(d2));
    HasEchoed(j0.chain[2], j.chain[2], x[2], Gap(d2));
  }

  lemma InEpochThree(d: Digest, d2: Digest)
    ensures Full(d, d2).config.number == 3 && Gap(d2).config.number == 3
  {
  }

  // ---------------------------------------------------------------- one of them is delivered

  lemma MayReadyGap(r: Replica, d2: Digest)
    requires Echoing(r, Gap(d2))
    ensures Prepared4(1, r, Gap(d2)) && Gap(d2) in r.echoes
  {
    hide HasN;
    forall s | 0 < s <= 2 ensures Opened(r.log, 1, s) {
      IntervalOpens(r.log, 1, s, s);
    }
  }

  /** Everyone has sent ready for `Gap`. */
  ghost predicate AllReadied(j: Joint, d: Digest, d2: Digest) {
    && j.chain.Keys == {0, 1, 2}
    && (forall i :: i in j.chain ==>
          var r := j.chain[i];
          r.phase == Readied && r.epoch == 3 && r.lastCheckpoint == 0 && Gap(d2) in r.readies
          && r.echoed == Some(if i == 0 then Full(d, d2) else Gap(d2)) && r.echoes == {FIRST, r.echoed.value})
    && Justified(Four(1), FAULTY, j.chain, Full(d, d2)) && Justified(Four(1), FAULTY, j.chain, Gap(d2))
  }

  lemma ReadiedOne(r: Replica, r': Replica, k: NewEpochConfig, own: NewEpochConfig)
    requires Echoing(r, own) && (r' == ReadiedState(r, k) || r' == JoinedState(r, k))
    ensures r'.phase == Readied && r'.epoch == 3 && r'.lastCheckpoint == 0 && k in r'.readies
    ensures r'.echoed == Some(own) && r'.echoes == {FIRST, own}
  {
    hide HasN;
    hide ReadyLog;
    hide CarriedVotes;
  }

  /** Nodes 1 and 2 ready `Gap` on echoes. */
  lemma TwoReady(batch: seq<RequestAck>, batch2: seq<RequestAck>) returns (j0: Joint, j: Joint)
    requires batch != [] && batch2 != []
    ensures
      var d, d2 := HashBatch(batch), HashBatch(batch2);
      && At(1, j) && TwoEchoes(j0, d, d2) && Moved(j0, j, {1, 2}) && j.chain[1] == ReadiedState(j0.chain[1], Gap(d2))
      && j.chain[2] == ReadiedState(j0.chain[2], Gap(d2))
  {
    hide At;
    hide NetworkGrows;
    hide Justified;
    hide Prepared4;
    hide Echoing;
    hide ReadiedState;
    hide HashBatch;
    hide Full;
    hide Gap;
    hide IsQuorum;
    hide Four;
    var d, d2 := HashBatch(batch), HashBatch(batch2);
    Pairs(1);
    j0 := BothEchoed(batch, batch2);
    MayReadyGap(j0.chain[1], d2);
    MayReadyGap(j0.chain[2], d2);
    j := ReadyOn(1, j0, {1, 2}, Gap(d2), {1, 2, 3});
  }

  lemma MayJoinGap(r: Replica, own: NewEpochConfig)
    requires Echoing(r, own)
    ensures r.phase == Echoed && r.epoch == 3
  {
  }

  /** Node 0 joins them. */
  lemma AllReady(batch: seq<RequestAck>, batch2: seq<RequestAck>) returns (j: Joint)
    requires batch != [] && batch2 != []
    ensures At(1, j) && AllReadied(j, HashBatch(batch), HashBatch(batch2))
  {
    hide At;
    hide NetworkGrows;
    hide Justified;
    hide Echoing;
    hide ReadiedState;
    hide JoinedState;
    hide HashBatch;
    hide Full;
    hide Gap;
    hide IsQuorum;
    hide NodeSet;
    hide Four;
    hide AllReadied;
    var d, d2 := HashBatch(batch), HashBatch(batch2);
    Pairs(1);
    InEpochThree(d, d2);
    var j0, j1 := TwoReady(batch, batch2);
    ReadiedOne(j0.chain[1], j1.chain[1], Gap(d2), Gap(d2));
    ReadiedOne(j0.chain[2], j1.chain[2], Gap(d2), Gap(d2));
    MayJoinGap(j0.chain[0], Full(d, d2));
    j := JoinOn(1, j1, {0}, Gap(d2), {1, 2});
    GrowsOn(j0.chain, j1.chain, j.chain);
    ShowsReadied(j0, j1, j, d, d2);
  }

  lemma ShowsReadied(j0: Joint, j1: Joint, j: Joint, d: Digest, d2: Digest)
    requires TwoEchoes(j0, d, d2) && j1.chain.Keys == j.chain.Keys == {0, 1, 2} && NetworkGrows(j0.chain, j.chain)
    requires j.chain[1] == ReadiedState(j0.chain[1], Gap(d2)) && j.chain[2] == ReadiedState(j0.chain[2], Gap(d2))
    requires j.chain[0] == JoinedState(j0.chain[0], Gap(d2))
    ensures AllReadied(j, d, d2)
  {
    hide Justified;
    hide Echoing;
    hide ReadiedState;
    hide JoinedState;
    hide Full;
    hide Gap;
    hide NetworkGrows;
    StillJustified(Four(1), FAULTY, j0.chain, j.chain, Full(d, d2));
    StillJustified(Four(1), FAULTY, j0.chain, j.chain, Gap(d2));
    hide Four;
    ReadiedOne(j0.chain[0], j.chain[0], Gap(d2), Full(d, d2));
    ReadiedOne(j0.chain[1], j.chain[1], Gap(d2), Gap(d2));
    ReadiedOne(j0.chain[2], j.chain[2], Gap(d2), Gap(d2));
  }

  /** The correct nodes delivered `Gap`, which the faulty leader of epoch 3 sent to nodes 1 and 2.  Node 0
      echoed `Full` and committed `d` at 1, node 1 the null digest there.  Both configurations had been
      verified. */
  ghost predicate Split(j: Joint, d: Digest, d2: Digest) {
    && j.chain.Keys == {0, 1, 2} && (forall i :: i in j.chain ==> Gap(d2) in j.chain[i].adopted)
    && OnDelivery(j, 0, 3, 1, d) && OnDelivery(j, 1, 3, 1, NullDigest) && LeaderOf(Four(1), 3) in FAULTY
    && Full(d, d2) in j.chain[0].echoes && Gap(d2) in j.chain[1].echoes && Verified(Four(1), FAULTY, j.chain, 2, 4)
  }

  lemma BothVerified(g: Network, d: Digest, d2: Digest)
    requires g.Keys == {0, 1, 2}
    requires Justified(Four(1), FAULTY, g, Full(d, d2)) && Justified(Four(1), FAULTY, g, Gap(d2))
    requires forall i :: i in g ==> g[i].echoes <= {FIRST, Full(d, d2), Gap(d2)}
    ensures Verified(Four(1), FAULTY, g, 2, 4)
  {
    hide Justified;
    forall i, k | i in g && k in g[i].echoes && 2 < k.config.number < 4 ensures Justified(Four(1), FAULTY, g, k) {
      assert k in {FIRST, Full(d, d2), Gap(d2)};
    }
  }

  lemma CommitsBoth(r: Replica, k: NewEpochConfig)
    requires r.echoed == Some(k) && r.lastCheckpoint == 0 && k.config.number == 3 && k.startingCheckpoint == ZERO
    requires |k.finalPreprepares| == 2
    ensures Vote(3, 1, k.finalPreprepares[0]) in Commits(r)
  {
    CarriedVote(k, Vote(3, 1, k.finalPreprepares[0]));
    hide CarriedVotes;
  }

  lemma ShowsSplit(j0: Joint, j: Joint, d: Digest, d2: Digest)
    requires AllReadied(j0, d, d2) && j.chain.Keys == {0, 1, 2} && NetworkGrows(j0.chain, j.chain)
    requires forall i :: i in j.chain ==>
               && j.chain[i].echoes == j0.chain[i].echoes && Gap(d2) in j.chain[i].adopted
               && Commits(j0.chain[i]) <= j.chain[i].delivered
    ensures Split(j, d, d2)
  {
    hide Justified;
    hide NetworkGrows;
    hide Commits;
    hide Verified;
    StillJustified(Four(1), FAULTY, j0.chain, j.chain, Full(d, d2));
    StillJustified(Four(1), FAULTY, j0.chain, j.chain, Gap(d2));
    BothVerified(j.chain, d, d2);
    CommitsBoth(j0.chain[0], Full(d, d2));
    CommitsBoth(j0.chain[1], Gap(d2));
  }

  lemma DeliveryMaySplit(batch: seq<RequestAck>, batch2: seq<RequestAck>) returns (run: seq<Joint>)
    requires batch != [] && batch2 != []
    ensures IsJointRun(Four(1), FAULTY, run, 0, GENESIS)
    ensures Split(run[|run| - 1], HashBatch(batch), HashBatch(batch2))
  {
    hide At;
    hide Split;
    hide Justified;
    hide NetworkGrows;
    hide CarriedVotes;
    hide Commits;
    hide HashBatch;
    hide Full;
    hide Gap;
    hide IsQuorum;
    hide Four;
    var d, d2 := HashBatch(batch), HashBatch(batch2);
    Pairs(1);
    InEpochThree(d, d2);
    var j0 := AllReady(batch, batch2);
    var j := DeliverOn(1, j0, {0, 1, 2}, Gap(d2), {1, 2, 3});
    ShowsSplit(j0, j, d, d2);
    run := ReachedBy(1, j);
  }
}
