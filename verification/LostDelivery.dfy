/** A digest committed on delivery may be lost: ready amplification writes no P entries. */
module LostDelivery {
  import opened Types
  import opened Quorums
  import opened Intervals
  import opened EpochChanges
  import opened NewEpochConfigs
  import opened WriteAheadLog
  import opened ReplicaVotes
  import opened EpochChain
  import opened JointRuns
  import opened JointPaths
  import opened Scenarios
  import opened FourNodes

  // ---------------------------------------------------------------- epoch 1: one node prepares

  function VoterReads(d: Digest): Content {
    Content(1, [ZERO], [], [SetEntry(1, 1, d)])
  }

  function PreparerReads(d: Digest): Content {
    Content(1, [ZERO], [SetEntry(1, 1, d)], [SetEntry(1, 1, d)])
  }

  /** Node 0 has prepared `d` at 1, node 1 voted for it and node 2 heard nothing. */
  function Readings(d: Digest): map<NodeId, Content> {
    map[0 := PreparerReads(d), 1 := VoterReads(d), 2 := BLANK.(tag := 1)]
  }

  /** A node at the end of epoch 1; only node 0 has P entries. */
  ghost predicate Leaving(r: Replica, x: Content) {
    && Reads(r.log, x) && HasN(r.log, 1) && r.epoch == 1 && !r.pending && r.lastCheckpoint == 0
    && r.echoes == {FIRST} && r.anchors == {FIRST} && r.led <= {FIRST}
    && (x.prepared == [] ==> r.prepares == {})
  }

  lemma OnePrepares(batch: seq<RequestAck>) returns (j: Joint)
    requires batch != []
    ensures At(1, j) && j.phases.Keys == {Slot(1, 1)}
    ensures forall i :: i in j.chain ==> Leaving(j.chain[i], Readings(HashBatch(batch))[i])
  {
    hide At;
    hide NetworkGrows;
    hide TakesPart;
    hide Owns;
    hide HashBatch;
    hide InFirst;
    hide Leaving;
    hide AssignedState;
    hide VotedState;
    hide IsQuorum;
    hide Four;
    var j0 := FirstEpoch(1);
    InChain(1, j0);
    Pairs(1);
    FirstSlot(1, j0);
    j := PrepareSlot(1, j0, Slot(1, 1), {0, 1, 3}, {0}, batch);
    FirstReadings(j0.chain[0], j0.chain[1], j0.chain[2], batch);
  }

  lemma FirstReadings(a: Replica, b: Replica, c: Replica, batch: seq<RequestAck>)
    requires InFirst(a) && InFirst(b) && InFirst(c)
    ensures Leaving(AssignedState(a, 1, batch), PreparerReads(HashBatch(batch)))
    ensures Leaving(VotedState(b, 1, batch), VoterReads(HashBatch(batch))) && Leaving(c, BLANK.(tag := 1))
  {
    hide Reads;
    hide HasN;
    hide HashBatch;
    var x, entry := BLANK.(tag := 1), SetEntry(1, 1, HashBatch(batch));
    AssignedReads(a, x, 1, batch);
    VotedReads(b, x, 1, batch);
    assert x.prepared + [entry] == [entry] && x.preprepared + [entry] == [entry];
  }

  // ---------------------------------------------------------------- epoch 2: the digest is carried over

  function Second(d: Digest): NewEpochConfig {
    Config(2, [d, NullDigest])
  }

  lemma SecondParsed(x: Content, d: Digest)
    requires x == PreparerReads(d) || x == VoterReads(d)
    ensures
      var m, entry := Parsed(ChangeFor(x, 2)), SetEntry(1, 1, d);
      && m.underlying == ChangeFor(x, 2) && m.lowWatermark == 0 && A2Vote(m, 1, entry)
      && (1 in m.pSet <==> x == PreparerReads(d)) && (1 in m.pSet ==> m.pSet[1] == entry) && 2 !in m.pSet
  {
    hide Parsed;
    hide A2Vote;
    ParsedLow(ChangeFor(x, 2));
    ParsedPrepared(ChangeFor(x, 2), 1);
    ParsedPrepared(ChangeFor(x, 2), 2);
    ParsedVouches(ChangeFor(x, 2), SetEntry(1, 1, d));
  }

  /** The epoch changes for epoch 2 are those of `Readings`. */
  ghost predicate AllChanged(g: Network, d: Digest) {
    g.Keys == {0, 1, 2} && forall i :: i in g ==> 2 in g[i].changes && g[i].changes[2] == ChangeFor(Readings(d)[i], 2)
  }

  lemma AllHaveChanged(d: Digest, g: Network)
    requires g.Keys == {0, 1, 2}
    requires forall i :: i in g && i in Readings(d) ==> 2 in g[i].changes && g[i].changes[2] == ChangeFor(Readings(d)[i], 2)
    ensures AllChanged(g, d)
  {
  }

  lemma SecondJustified(d: Digest, g: Network)
    requires d != NullDigest && AllChanged(g, d)
    ensures Justified(Four(1), FAULTY, g, Second(d))
  {
    hide IsOrder;
    hide OutcomeInOrder;
    hide Genuine;
    hide CarryAt;
    var x, y, z := PreparerReads(d), VoterReads(d), BLANK.(tag := 1);
    var entry := SetEntry(1, 1, d);
    SecondParsed(x, d);
    SecondParsed(y, d);
    QuietParsed(z, 2);
    hide Parsed;
    hide A2Vote;
    var ec: Changes := map[0 := Parsed(ChangeFor(x, 2)), 1 := Parsed(ChangeFor(y, 2)), 2 := Parsed(ChangeFor(z, 2))];
    assert ec.Keys == {0, 1, 2};
    CarriesEntry(1, ec, 2, 1, entry, 0, 1);
    CarriesNothing(1, ec, 2, 2);
    ChoosesPair(ec, 2, d, NullDigest);
    IsGenuine(1, g, ec, 2);
    assert JustifiedBy(Four(1), FAULTY, g, Second(d), ec, Leaders(2), [ZERO]);
  }

  function EchoReadings(d: Digest): map<NodeId, Content> {
    map i | i in {0, 1, 2} :: EchoedContent(Readings(d)[i], Second(d))
  }

  /** A node that has echoed epoch 2 and not gone further. */
  ghost predicate HasEchoed(r: Replica, x: Content, d: Digest) {
    && Reads(r.log, x) && HasN(r.log, 1) && r.phase == Echoed && r.epoch == 2 && !r.pending && r.lastCheckpoint == 0
    && r.echoed == Some(Second(d)) && r.echoes == {FIRST, Second(d)} && r.anchors == {FIRST}
    && (x.prepared == [] ==> r.prepares == {})
  }

  ghost predicate Offered(r: Replica, x: Content, d: Digest) {
    && Hearing(1, r, x, Second(d)) && HasN(r.log, 1) && !r.pending && r.lastCheckpoint == 0
    && r.echoes == {FIRST} && r.anchors == {FIRST} && (x.prepared == [] ==> r.prepares == {})
  }

  lemma MayHear(r: Replica, r': Replica, x: Content, d: Digest)
    requires Leaving(r, x) && x.tag == 1 && d != NullDigest && r' == Changed(r, x, 2).(led := r'.led)
    requires Reads(r'.log, x) && KeepsN(r.log, r'.log)
    ensures Offered(r', x, d)
  {
    hide Reads;
    hide HasN;
  }

  /** Node 2 leads epoch 2 correctly. */
  lemma SecondShape(batch: seq<RequestAck>)
    ensures
      var d := HashBatch(batch);
      && d != NullDigest && Readings(d).Keys == {0, 1, 2} && (forall i :: i in Readings(d) ==> Readings(d)[i].tag == 1)
      && Second(d).config.number == 2 && Second(d).config.leaders == [2]
  {
  }

  lemma SecondOffered(batch: seq<RequestAck>) returns (j: Joint)
    requires batch != []
    ensures
      var d := HashBatch(batch);
      && At(1, j) && j.phases.Keys == {Slot(1, 1)} && FromLeader(Four(1), FAULTY, j.chain, Second(d))
      && Justified(Four(1), FAULTY, j.chain, Second(d))
      && forall i :: i in j.chain ==> Offered(j.chain[i], Readings(d)[i], d)
  {
    hide *;
    var d := HashBatch(batch);
    var x := Readings(d);
    SecondShape(batch);
    var j0 := OnePrepares(batch);
    InChain(1, j0);
    forall i | i in x ensures MayLeave(j0.chain[i], x[i], 2) {
      FirstMayEnd(j0.chain[i], x[i]);
    }
    var j1 := Leave(1, j0, x, 2);
    InChain(1, j1);
    forall i | i in x ensures 2 in j1.chain[i].changes && j1.chain[i].changes[2] == ChangeFor(x[i], 2) {
      ChangedChanges(j0.chain[i], x[i]);
    }
    AllHaveChanged(d, j1.chain);
    SecondJustified(d, j1.chain);
    MayOffer(j0.chain[2], x[2]);
    j := LeadEpoch(1, j1, 2, Second(d));
    InChain(1, j);
    forall i | i in j.chain ensures Offered(j.chain[i], x[i], d) {
      MovedStays(j1, j, {2}, i);
      LedKeeps(j1.chain[2], Second(d));
      MayHear(j0.chain[i], j.chain[i], x[i], d);
    }
    MovedPhases(j0, j1, x.Keys);
    MovedPhases(j1, j, {2});
  }

  lemma FirstMayEnd(r: Replica, x: Content)
    requires Leaving(r, x) && x.tag == 1
    ensures MayLeave(r, x, 2)
  {
    hide Reads;
    hide HasN;
  }

  lemma ChangedChanges(r: Replica, x: Content)
    ensures var r' := Changed(r, x, 2); 2 in r'.changes && r'.changes[2] == ChangeFor(x, 2)
  {
  }

  lemma MayOffer(r: Replica, x: Content)
    requires Leaving(r, x)
    ensures var r' := Changed(r, x, 2);
            r'.phase == Changing && r'.epoch == 2 && 2 in r'.changes && forall k' :: k' in r'.led ==> k'.config.number != 2
  {
    hide Reads;
    hide HasN;
  }

  lemma EchoesSecond(r: Replica, r': Replica, x: Content, d: Digest)
    requires Offered(r, x, d) && r' == EchoedState(Four(1), r, Second(d)) && Reads(r'.log, EchoedContent(x, Second(d)))
    requires HasN(r'.log, 1) && d != NullDigest
    ensures HasEchoed(r', EchoedContent(x, Second(d)), d) && HasN(r'.log, 2)
  {
    hide Reads;
    hide HasN;
    hide EchoLog;
    hide CarriedVotes;
    EchoOpens(Four(1), r.log, Second(d), StopAt(Four(1), r), 2);
  }

  /** And all echo it. */
  lemma AllEcho(batch: seq<RequestAck>) returns (j: Joint)
    requires batch != []
    ensures
      var d := HashBatch(batch);
      && At(1, j) && j.phases.Keys == {Slot(1, 1)}
      && forall i :: i in j.chain ==> HasEchoed(j.chain[i], EchoReadings(d)[i], d) && HasN(j.chain[i].log, 2)
  {
    hide At;
    hide Reads;
    hide HasN;
    hide KeepsN;
    hide NetworkGrows;
    hide Justified;
    hide FromLeader;
    hide EchoedState;
    hide HasEchoed;
    hide Hearing;
    var d := HashBatch(batch);
    assert d != NullDigest;
    hide HashBatch;
    var x := Readings(d);
    var j0 := SecondOffered(batch);
    InChain(1, j0);
    j := Echoes(1, j0, x, Second(d));
    hide Offered;
    forall i | i in j.chain ensures HasEchoed(j.chain[i], EchoReadings(d)[i], d) && HasN(j.chain[i].log, 2) {
      EchoesSecond(j0.chain[i], j.chain[i], x[i], d);
    }
  }

  // ---------------------------------------------------------------- it is readied and delivered at one node

  /** Node 0 has committed `d` at 1 on delivery; nodes 1 and 2 have no P entries. */
  ghost predicate SecondDelivered(j: Joint, d: Digest) {
    && j.chain.Keys == {0, 1, 2} && j.phases.Keys == {Slot(1, 1)}
    && Vote(2, 1, d) in j.chain[0].delivered && j.chain[0].echoes == {FIRST, Second(d)}
    && forall i :: i == 1 || i == 2 ==>
         var r, x := j.chain[i], EchoReadings(d)[i];
         && Reads(r.log, x) && HasN(r.log, 1) && r.epoch == 2 && !r.pending && r.lastCheckpoint == 0
         && r.echoes == {FIRST, Second(d)} && r.anchors == {FIRST} && r.prepares == {}
  }

  lemma MayReadySecond(r: Replica, x: Content, d: Digest)
    requires HasEchoed(r, x, d) && HasN(r.log, 2)
    ensures Prepared4(1, r, Second(d)) && Second(d) in r.echoes
  {
    hide Reads;
    hide HasN;
    forall s | 0 < s <= 2 ensures Opened(r.log, 1, s) {
      IntervalOpens(r.log, 1, s, s);
    }
  }

  /** Node 0 has readied epoch 2 on echoes, node 1 on readies, node 2 not. */
  ghost predicate SecondReadied(j: Joint, d: Digest) {
    && j.chain.Keys == {0, 1, 2} && j.phases.Keys == {Slot(1, 1)}
    && var a, b, c := j.chain[0], j.chain[1], j.chain[2];
       && a.phase == Readied && a.epoch == 2 && a.echoed == Some(Second(d)) && a.lastCheckpoint == 0
       && a.echoes == {FIRST, Second(d)} && Second(d) in a.readies && Second(d) in b.readies
       && HasEchoed(b.(phase := Echoed), EchoReadings(d)[1], d) && HasEchoed(c, EchoReadings(d)[2], d)
  }

  lemma FirstReadies(batch: seq<RequestAck>) returns (j0: Joint, j: Joint)
    requires batch != []
    ensures
      var d := HashBatch(batch);
      && At(1, j) && j0.chain.Keys == j.chain.Keys == {0, 1, 2} && j.phases.Keys == {Slot(1, 1)}
      && (forall i :: i in j0.chain ==> HasEchoed(j0.chain[i], EchoReadings(d)[i], d))
      && j.chain[0] == ReadiedState(j0.chain[0], Second(d)) && j.chain[1] == j0.chain[1] && j.chain[2] == j0.chain[2]
  {
    hide At;
    hide HasN;
    hide NetworkGrows;
    hide HasEchoed;
    hide Prepared4;
    hide IsQuorum;
    hide ReadiedState;
    hide NodeSet;
    hide Four;
    var d := HashBatch(batch);
    hide HashBatch;
    Pairs(1);
    j0 := AllEcho(batch);
    InChain(1, j0);
    forall i | i in j0.chain ensures Prepared4(1, j0.chain[i], Second(d)) && Second(d) in j0.chain[i].echoes {
      MayReadySecond(j0.chain[i], EchoReadings(d)[i], d);
    }
    j := ReadyOn(1, j0, {0}, Second(d), {0, 1, 2});
  }

  lemma OneReadies(batch: seq<RequestAck>) returns (j: Joint)
    requires batch != []
    ensures At(1, j) && SecondReadied(j, HashBatch(batch))
  {
    hide At;
    hide NetworkGrows;
    hide HasEchoed;
    hide IsQuorum;
    hide ReadiedState;
    hide JoinedState;
    hide NodeSet;
    hide SecondReadied;
    hide Four;
    var d := HashBatch(batch);
    hide HashBatch;
    Pairs(1);
    var j0, j1 := FirstReadies(batch);
    StillEchoing(j0.chain[0], j0.chain[1], EchoReadings(d)[0], EchoReadings(d)[1], d);
    j := JoinOn(1, j1, {1}, Second(d), {0, 3});
    ReadiedSecond(j0, j, d);
  }

  lemma StillEchoing(a: Replica, b: Replica, x: Content, y: Content, d: Digest)
    requires HasEchoed(a, x, d) && HasEchoed(b, y, d)
    ensures Second(d) in ReadiedState(a, Second(d)).readies && b.phase == Echoed && b.epoch == 2
  {
    hide Reads;
    hide HasN;
    hide ReadyLog;
    hide CarriedVotes;
  }

  lemma ReadiedSecond(j0: Joint, j: Joint, d: Digest)
    requires j.chain.Keys == {0, 1, 2} == j0.chain.Keys && j.phases.Keys == {Slot(1, 1)}
    requires forall i :: i in j0.chain ==> HasEchoed(j0.chain[i], EchoReadings(d)[i], d)
    requires j.chain[0] == ReadiedState(j0.chain[0], Second(d)) && j.chain[1] == JoinedState(j0.chain[1], Second(d))
    requires j.chain[2] == j0.chain[2]
    ensures SecondReadied(j, d)
  {
    hide Reads;
    hide HasN;
    hide ReadyLog;
    hide CarriedVotes;
    hide EchoReadings;
  }

  lemma FirstDelivery(batch: seq<RequestAck>) returns (j: Joint)
    requires batch != []
    ensures At(1, j) && SecondDelivered(j, HashBatch(batch))
  {
    hide At;
    hide Reads;
    hide HasN;
    hide NetworkGrows;
    hide EchoReadings;
    hide CarriedVotes;
    hide IsQuorum;
    hide Four;
    hide HasEchoed;
    hide SecondDelivered;
    var d := HashBatch(batch);
    hide HashBatch;
    Pairs(1);
    var j0 := OneReadies(batch);
    j := DeliverOn(1, j0, {0}, Second(d), {0, 1, 3});
    ShowsDelivered(j0, j, d);
  }

  lemma ShowsDelivered(j0: Joint, j: Joint, d: Digest)
    requires SecondReadied(j0, d) && j.chain.Keys == {0, 1, 2} && j.phases == j0.phases
    requires j.chain[1] == j0.chain[1] && j.chain[2] == j0.chain[2] && j.chain[0].echoes == j0.chain[0].echoes
    requires Commits(j0.chain[0]) <= j.chain[0].delivered
    ensures SecondDelivered(j, d)
  {
    hide Reads;
    hide HasN;
    hide EchoReadings;
    QuietReadings(d);
    CarriedVote(Second(d), Vote(2, 1, d));
    hide CarriedVotes;
    assert Vote(2, 1, d) in Commits(j0.chain[0]);
  }

  lemma QuietReadings(d: Digest)
    ensures EchoReadings(d).Keys == {0, 1, 2}
    ensures forall i :: i == 1 || i == 2 ==> EchoReadings(d)[i].prepared == [] && EchoReadings(d)[i].checkpoints == [ZERO]
                                             && EchoReadings(d)[i].tag == 2
  {
  }

  // ---------------------------------------------------------------- epoch 3: nobody left to report it

  const THIRD := Config(3, [])

  function LateReadings(d: Digest): map<NodeId, Content> {
    map[1 := EchoReadings(d)[1], 2 := EchoReadings(d)[2]]
  }

  /** Nodes 1 and 2 work in epoch 3, which carries nothing over. */
  ghost predicate TwoWork(j: Joint, d: Digest) {
    && j.chain.Keys == {0, 1, 2} && j.phases.Keys == {Slot(1, 1)} && Justified(Four(1), FAULTY, j.chain, THIRD)
    && Vote(2, 1, d) in j.chain[0].delivered && j.chain[0].echoes == {FIRST, Second(d)}
    && forall i :: i == 1 || i == 2 ==>
         var r := j.chain[i];
         && r.phase == Active && r.epoch == 3 && r.echoed == Some(THIRD) && THIRD in r.adopted && HasN(r.log, 1)
         && r.lastCheckpoint == 0 && r.echoes == {FIRST, Second(d), THIRD} && r.anchors == {FIRST, THIRD} && r.prepares == {}
  }

  lemma ThirdChanged(d: Digest, j: Joint) returns (j': Joint)
    requires At(1, j) && SecondDelivered(j, d)
    ensures At(1, j') && Moved(j, j', {1, 2}) && Justified(Four(1), FAULTY, j'.chain, THIRD)
    ensures forall i :: i == 1 || i == 2 ==> && j'.chain[i] == Changed(j.chain[i], LateReadings(d)[i], 3)
                                             && Hearing(1, j'.chain[i], LateReadings(d)[i], THIRD)
  {
    hide Reached;
    hide Reads;
    hide HasN;
    hide NetworkGrows;
    hide Justified;
    hide EchoReadings;
    QuietReadings(d);
    var x := LateReadings(d);
    assert x.Keys == {1, 2};
    j' := Leave(1, j, x, 3);
    QuietJustified(1, j'.chain, x[1], x[2], 3);
  }

  lemma ThirdShape()
    ensures THIRD.config.number == 3 && THIRD.finalPreprepares == []
  {
  }

  lemma ThirdEpoch(batch: seq<RequestAck>) returns (j: Joint)
    requires batch != []
    ensures At(1, j) && TwoWork(j, HashBatch(batch))
  {
    hide *;
    ThirdShape();
    var d := HashBatch(batch);
    Pairs(1);
    var j0 := FirstDelivery(batch);
    var j1 := ThirdChanged(d, j0);
    InChain(1, j0);
    InChain(1, j1);
    FaultyLeads(1, j1.chain, THIRD);
    var x := LateReadings(d);
    LateKeys(d);
    assert x.Keys + {3} == {1, 2, 3};
    assert forall i :: i in x ==> j1.chain[i].lastCheckpoint == 0 by {
      SameCheckpoints(j0, j1, d);
    }
    j := Settle(1, j1, x, THIRD);
    InChain(1, j);
    MovedGrows(j1, j, x.Keys);
    StillJustified(Four(1), FAULTY, j1.chain, j.chain, THIRD);
    assert 1 in x && 2 in x;
    ShowsWork(j0, j1, j, d);
  }

  lemma SameCheckpoints(j0: Joint, j1: Joint, d: Digest)
    requires SecondDelivered(j0, d) && 1 in j1.chain && 2 in j1.chain
    requires forall i :: i == 1 || i == 2 ==> j1.chain[i] == Changed(j0.chain[i], LateReadings(d)[i], 3)
    ensures j1.chain[1].lastCheckpoint == 0 && j1.chain[2].lastCheckpoint == 0
  {
    hide Reads;
    hide HasN;
    hide EchoReadings;
  }

  lemma ShowsWork(j0: Joint, j1: Joint, j: Joint, d: Digest)
    requires SecondDelivered(j0, d) && Moved(j0, j1, {1, 2}) && Moved(j1, j, {1, 2}) && Justified(Four(1), FAULTY, j.chain, THIRD)
    requires forall i :: i == 1 || i == 2 ==> j1.chain[i] == Changed(j0.chain[i], LateReadings(d)[i], 3)
    requires forall i :: i == 1 || i == 2 ==> AtWork(j1.chain[i], j.chain[i], THIRD) && HasN(j.chain[i].log, 1)
    ensures TwoWork(j, d)
  {
    hide Reads;
    hide HasN;
    hide Justified;
    hide NetworkGrows;
    hide EchoReadings;
  }

  lemma LateKeys(d: Digest)
    ensures LateReadings(d).Keys == {1, 2}
  {
  }

  /** Node 0 committed `d` at 1 on delivering epoch 2, nodes 1 and 2 committed `d1` there in epoch 3.  No
      window ended below 1, every echo was verified and all correct nodes echoed the same in epoch 2, but
      no quorum readied that epoch on echoes and `d` is not locked. */
  ghost predicate Diverged(j: Joint, d: Digest, d1: Digest) {
    && j.chain.Keys == {0, 1, 2} && OnDelivery(j, 0, 2, 1, d) && ByPhases(j, 1, 3, 1, d1) && ByPhases(j, 2, 3, 1, d1)
    && NoneEndsBelow(Four(1), j.chain, 2, 4, 1) && Verified(Four(1), FAULTY, j.chain, 2, 4)
    && AllEchoed(j.chain, Second(d)) && Second(d) in j.chain[0].echoes
    && !Locked(Four(1), FAULTY, j.chain, 2, 1, d)
    && forall q :: !AnchorQuorum(Four(1), FAULTY, j.chain, q, Second(d))
  }

  lemma NoAnchors(d: Digest, g: Network)
    requires g.Keys == {0, 1, 2} && Second(d) !in g[1].anchors && Second(d) !in g[2].anchors
    ensures forall q :: !AnchorQuorum(Four(1), FAULTY, g, q, Second(d))
  {
    FourFacts(1);
    forall q: set<NodeId> ensures !AnchorQuorum(Four(1), FAULTY, g, q, Second(d)) {
      if IsQuorum(Four(1), q) && 1 !in q && 2 !in q {
        SubsetSize(q, {0, 3});
        assert false;
      }
    }
  }

  lemma NotLocked(d: Digest, g: Network)
    requires g.Keys == {0, 1, 2}
    requires forall i, v :: (i == 1 || i == 2) && v in g[i].prepares ==> v.epoch > 2
    ensures !Locked(Four(1), FAULTY, g, 2, 1, d)
  {
    FourFacts(1);
    var idle := Idling(g, 2, 1);
    assert 1 in idle && 2 in idle;
    SubsetSize({1, 2, 3}, idle + FAULTY);
  }

  lemma ThirdEchoes(g: Network, d: Digest)
    requires g.Keys == {0, 1, 2} && Justified(Four(1), FAULTY, g, THIRD) && g[0].echoes == {FIRST, Second(d)}
    requires forall i :: i == 1 || i == 2 ==> g[i].echoes == {FIRST, Second(d), THIRD}
    ensures NoneEndsBelow(Four(1), g, 2, 4, 1) && Verified(Four(1), FAULTY, g, 2, 4) && AllEchoed(g, Second(d))
  {
    hide Justified;
    forall i, k | i in g && k in g[i].echoes ensures k == FIRST || k == Second(d) || k == THIRD {
    }
  }

  lemma ShowsDiverged(j: Joint, j': Joint, d: Digest, d1: Digest, batch: seq<RequestAck>)
    requires TwoWork(j, d) && j'.chain.Keys == j.chain.Keys && j'.chain[0] == j.chain[0] && NetworkGrows(j.chain, j'.chain)
    requires forall i :: i == 1 || i == 2 ==> j'.chain[i] == AssignedState(j.chain[i], 1, batch)
    requires ByPhases(j', 1, 3, 1, d1) && ByPhases(j', 2, 3, 1, d1)
    ensures Diverged(j', d, d1)
  {
    hide Justified;
    hide HasN;
    hide Locked;
    hide AnchorQuorum;
    hide ByPhases;
    hide NoneEndsBelow;
    hide Verified;
    hide AllEchoed;
    hide NetworkGrows;
    StillJustified(Four(1), FAULTY, j.chain, j'.chain, THIRD);
    hide Four;
    ThirdEchoes(j'.chain, d);
    NoAnchors(d, j'.chain);
    NotLocked(d, j'.chain);
  }

  /** The input behind it: only node 0 prepared `d` in epoch 1 and only node 0 readied epoch 2, which
      the correct node 2 leads, on echoes; node 1 joined it on the readies of 0 and the faulty node, which
      let node 0 deliver.  The faulty node leads epoch 3. */
  lemma DeliveredDigestMayBeLost(batch: seq<RequestAck>, batch1: seq<RequestAck>) returns (run: seq<Joint>)
    requires batch != [] && batch1 != []
    ensures IsJointRun(Four(1), FAULTY, run, 0, GENESIS)
    ensures Diverged(run[|run| - 1], HashBatch(batch), HashBatch(batch1))
  {
    hide At;
    hide Diverged;
    hide HashBatch;
    hide ByPhases;
    hide TakesPart;
    hide Owns;
    hide TwoWork;
    hide AssignedState;
    hide NetworkGrows;
    hide IsQuorum;
    hide Four;
    Pairs(1);
    var j := ThirdEpoch(batch);
    InChain(1, j);
    ThirdSlot(j, HashBatch(batch));
    var j' := CommitSlot(1, j, Slot(3, 1), {1, 2, 3}, batch1);
    ShowsDiverged(j, j', HashBatch(batch), HashBatch(batch1), batch1);
    run := ReachedBy(1, j');
  }

  lemma ThirdSlot(j: Joint, d: Digest)
    requires At(1, j) && TwoWork(j, d)
    ensures Owns(Four(1), j.chain, Slot(3, 1), 3) && 3 in NodeSet(Four(1)) && Slot(3, 1) !in j.phases
    ensures TakesPart(Four(1), j.chain[1], Slot(3, 1)) && TakesPart(Four(1), j.chain[2], Slot(3, 1))
  {
    hide At;
    hide HasN;
    hide Justified;
    hide TakesPart;
    hide Owns;
    LeaderOwns(1, j.chain, 1, 3, [], 1);
    MayWork(1, j, 1, THIRD, 1, 1);
    MayWork(1, j, 2, THIRD, 1, 1);
  }
}
