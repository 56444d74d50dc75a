/** A correct replica may echo a configuration that nobody verified: while it waits with a verified one, a
    faulty leader can replace it.  A digest that a quorum prepared is then not carried over. */
module ReplacedEcho {
  import opened Types
  import opened Quorums
  import opened Intervals
  import opened EpochChanges
  import opened NewEpochConfigs
  import opened WriteAheadLog
  import opened ReplicaVotes
  import opened EpochChain
  import opened JointRuns
  import opened JointPaths
  import opened Scenarios
  import opened FourNodes

  // ---------------------------------------------------------------- epoch 1: two nodes commit

  function CommitterReads(d: Digest): Content {
    Content(1, [ZERO], [SetEntry(1, 1, d)], [SetEntry(1, 1, d)])
  }

  function Readings(d: Digest): map<NodeId, Content> {
    map[0 := CommitterReads(d), 1 := CommitterReads(d), 2 := BLANK.(tag := 1)]
  }

  /** A node at the end of epoch 1. */
  ghost predicate Leaving(r: Replica, x: Content) {
    && Reads(r.log, x) && HasN(r.log, 1) && r.epoch == 1 && !r.pending && r.lastCheckpoint == 0 && r.echoes == {FIRST}
    && (x.preprepared == [] ==> r.preprepares == {})
  }

  lemma FirstReadings(a: Replica, c: Replica, batch: seq<RequestAck>)
    requires InFirst(a) && InFirst(c)
    ensures Leaving(AssignedState(a, 1, batch), CommitterReads(HashBatch(batch))) && Leaving(c, BLANK.(tag := 1))
    ensures Vote(1, 1, HashBatch(batch)) in AssignedState(a, 1, batch).prepares
  {
    hide Reads;
    hide HasN;
    hide HashBatch;
    var x, entry := BLANK.(tag := 1), SetEntry(1, 1, HashBatch(batch));
    AssignedReads(a, x, 1, batch);
    assert x.prepared + [entry] == [entry] && x.preprepared + [entry] == [entry];
  }

  /** Nodes 0 and 1 have committed `d` at 1 by phases. */
  ghost predicate TwoCommitted(j: Joint, d: Digest) {
    && j.chain.Keys == {0, 1, 2} && ByPhases(j, 0, 1, 1, d) && ByPhases(j, 1, 1, 1, d)
    && Vote(1, 1, d) in j.chain[0].prepares && Vote(1, 1, d) in j.chain[1].prepares
  }

  lemma TwoCommit(batch: seq<RequestAck>) returns (j: Joint)
    requires batch != []
    ensures At(1, j) && TwoCommitted(j, HashBatch(batch))
    ensures forall i :: i in j.chain ==> Leaving(j.chain[i], Readings(HashBatch(batch))[i])
  {
    hide At;
    hide ByPhases;
    hide NetworkGrows;
    hide TakesPart;
    hide Owns;
    hide HashBatch;
    hide InFirst;
    hide Leaving;
    hide AssignedState;
    hide IsQuorum;
    hide Four;
    var j0 := FirstEpoch(1);
    InChain(1, j0);
    Pairs(1);
    FirstSlot(1, j0);
    j := CommitSlot(1, j0, Slot(1, 1), {0, 1, 3}, batch);
    FirstReadings(j0.chain[0], j0.chain[2], batch);
    FirstReadings(j0.chain[1], j0.chain[2], batch);
  }

  /** What was committed stays so. */
  lemma StillCommitted(j: Joint, j': Joint, d: Digest)
    requires TwoCommitted(j, d) && j'.phases == j.phases && NetworkGrows(j.chain, j'.chain)
    ensures TwoCommitted(j', d)
  {
  }

  // ---------------------------------------------------------------- epoch 3: a configuration is verified

  function Good(d: Digest): NewEpochConfig {
    Config(3, [d, NullDigest])
  }

  /** What the faulty leader sends to node 2 afterwards. */
  const BAD := Config(3, [NullDigest])

  /** A node that has left for epoch 3. */
  ghost predicate Left(r: Replica, x: Content) {
    && Reads(r.log, x) && HasN(r.log, 1) && r.epoch == 3 && r.lastCheckpoint == 0 && r.phase == Changing
    && 3 in r.changes && r.changes[3] == ChangeFor(x, 3) && r.echoes == {FIRST}
    && (x.preprepared == [] ==> r.preprepares == {})
  }

  lemma MayLeaveTwice(r: Replica, x: Content)
    requires Leaving(r, x) && x.tag == 1
    ensures MayLeave(r, x, 2)
    ensures forall r1 :: r1 == Changed(r, x, 2) && Reads(r1.log, x) ==> MayLeave(r1, x, 3)
  {
    hide Reads;
    hide HasN;
  }

  lemma HasLeft(r: Replica, r1: Replica, r2: Replica, x: Content)
    requires Leaving(r, x) && x.tag == 1 && r1 == Changed(r, x, 2) && r2 == Changed(r1, x, 3) && Reads(r2.log, x)
    requires KeepsN(r.log, r1.log) && KeepsN(r1.log, r2.log)
    ensures Left(r2, x)
  {
    hide Reads;
    hide HasN;
  }

  lemma AllLeave(batch: seq<RequestAck>) returns (j: Joint)
    requires batch != []
    ensures At(1, j) && TwoCommitted(j, HashBatch(batch))
    ensures forall i :: i in j.chain ==> Left(j.chain[i], Readings(HashBatch(batch))[i])
  {
    hide At;
    hide Reads;
    hide Leaving;
    hide Left;
    hide MayLeave;
    hide Changed;
    hide KeepsN;
    hide NetworkGrows;
    hide HashBatch;
    hide ByPhases;
    var d := HashBatch(batch);
    var x := Readings(d);
    var j0 := TwoCommit(batch);
    forall i | i in x ensures MayLeave(j0.chain[i], x[i], 2) {
      MayLeaveTwice(j0.chain[i], x[i]);
    }
    var j1 := Leave(1, j0, x, 2);
    forall i | i in x ensures MayLeave(j1.chain[i], x[i], 3) {
      MayLeaveTwice(j0.chain[i], x[i]);
    }
    j := Leave(1, j1, x, 3);
    forall i | i in x ensures Left(j.chain[i], x[i]) {
      HasLeft(j0.chain[i], j1.chain[i], j.chain[i], x[i]);
    }
    StillCommitted(j0, j1, d);
    StillCommitted(j1, j, d);
  }

  lemma CommitterParsed(d: Digest)
    ensures
      var m, entry := Parsed(ChangeFor(CommitterReads(d), 3)), SetEntry(1, 1, d);
      && m.underlying == ChangeFor(CommitterReads(d), 3) && m.lowWatermark == 0 && A2Vote(m, 1, entry)
      && 1 in m.pSet && m.pSet[1] == entry && 2 !in m.pSet
  {
    hide Parsed;
    hide A2Vote;
    var m := ChangeFor(CommitterReads(d), 3);
    ParsedLow(m);
    ParsedPrepared(m, 1);
    ParsedPrepared(m, 2);
    ParsedVouches(m, SetEntry(1, 1, d));
  }

  lemma GoodJustified(d: Digest, g: Network)
    requires d != NullDigest && g.Keys == {0, 1, 2} && forall i :: i in g ==> Left(g[i], Readings(d)[i])
    ensures Justified(Four(1), FAULTY, g, Good(d))
  {
    hide IsOrder;
    hide OutcomeInOrder;
    hide Genuine;
    hide CarryAt;
    hide Reads;
    hide HasN;
    var x, z := CommitterReads(d), BLANK.(tag := 1);
    CommitterParsed(d);
    QuietParsed(z, 3);
    hide Parsed;
    hide A2Vote;
    var ec: Changes := map[0 := Parsed(ChangeFor(x, 3)), 1 := Parsed(ChangeFor(x, 3)), 2 := Parsed(ChangeFor(z, 3))];
    assert ec.Keys == {0, 1, 2};
    CarriesEntry(1, ec, 3, 1, SetEntry(1, 1, d), 0, 1);
    CarriesNothing(1, ec, 3, 2);
    ChoosesPair(ec, 3, d, NullDigest);
    IsGenuine(1, g, ec, 3);
    assert JustifiedBy(Four(1), FAULTY, g, Good(d), ec, Leaders(3), [ZERO]);
  }

  // ---------------------------------------------------------------- it is replaced at node 2

  /** Node 2 knows no batch for `d` and has to wait, so the leader can replace the configuration. */
  lemma MayReplace(d: Digest, g: Network)
    requires d != NullDigest && 2 in g && Left(g[2], BLANK.(tag := 1)) && Justified(Four(1), FAULTY, g, Good(d))
    ensures Replaceable(Four(1), FAULTY, g, 2, BAD)
  {
    hide Justified;
    hide Reads;
    hide HasN;
    assert Carries(Good(d), 1, d);
    assert MayWait(g[2], Good(d));
    assert LeaderOf(Four(1), 3) == 3;
  }

  lemma MayHear(r: Replica, x: Content, d: Digest)
    requires Left(r, x) && x.tag == 1 && d != NullDigest
    ensures Hearing(1, r, x, Good(d)) && Hearing(1, r, x, BAD)
  {
    hide Reads;
    hide HasN;
  }

  /** A node that echoed `k` in epoch 3. */
  ghost predicate Echoing(r: Replica, k: NewEpochConfig) {
    && r.phase == Echoed && r.epoch == 3 && r.lastCheckpoint == 0 && r.echoed == Some(k) && r.echoes == {FIRST, k}
    && (k != BAD ==> HasN(r.log, 1) && HasN(r.log, 2))
  }

  lemma HasEchoed(r: Replica, r': Replica, x: Content, k: NewEpochConfig, d: Digest)
    requires Left(r, x) && r' == EchoedState(Four(1), r, k) && HasN(r'.log, 1) && (k == Good(d) || k == BAD) && d != NullDigest
    ensures Echoing(r', k)
  {
    hide Reads;
    hide HasN;
    hide EchoLog;
    hide CarriedVotes;
    if k == Good(d) {
      EchoOpens(Four(1), r.log, k, StopAt(Four(1), r), 2);
    }
  }

  /** Nodes 0 and 1 have echoed what they verified, node 2 what it has not. */
  ghost predicate TwoEchoes(j: Joint, d: Digest) {
    && TwoCommitted(j, d) && Echoing(j.chain[0], Good(d)) && Echoing(j.chain[1], Good(d)) && Echoing(j.chain[2], BAD)
  }

  lemma AllEcho(batch: seq<RequestAck>) returns (j: Joint)
    requires batch != []
    ensures At(1, j) && TwoEchoes(j, HashBatch(batch))
  {
    hide At;
    hide Reads;
    hide HasN;
    hide KeepsN;
    hide NetworkGrows;
    hide Justified;
    hide Replaceable;
    hide FromLeader;
    hide ByPhases;
    hide Left;
    hide Hearing;
    hide EchoedState;
    hide Echoing;
    hide Good;
    hide Four;
    var d := HashBatch(batch);
    assert d != NullDigest;
    hide HashBatch;
    var x := Readings(d);
    var j0 := AllLeave(batch);
    GoodJustified(d, j0.chain);
    forall i | i in x ensures Hearing(1, j0.chain[i], x[i], Good(d)) && Hearing(1, j0.chain[i], x[i], BAD) {
      MayHear(j0.chain[i], x[i], d);
    }
    InEpochThree(d);
    FaultyLeads(1, j0.chain, Good(d));
    var j1 := Echoes(1, j0, map[0 := x[0], 1 := x[1]], Good(d));
    StillJustified(Four(1), FAULTY, j0.chain, j1.chain, Good(d));
    FaultyLeads(1, j1.chain, BAD);
    MayReplace(d, j1.chain);
    j := Echoes(1, j1, map[2 := x[2]], BAD);
    HasEchoed(j0.chain[0], j.chain[0], x[0], Good(d), d);
    HasEchoed(j0.chain[1], j.chain[1], x[1], Good(d), d);
    HasEchoed(j0.chain[2], j.chain[2], x[2], BAD, d);
    StillCommitted(j0, j1, d);
    StillCommitted(j1, j, d);
  }

  lemma InEpochThree(d: Digest)
    ensures Good(d).config.number == 3 && BAD.config.number == 3
  {
  }

  // ---------------------------------------------------------------- the verified one is delivered

  lemma MayReadyGood(r: Replica, d: Digest)
    requires Echoing(r, Good(d))
    ensures Prepared4(1, r, Good(d)) && Good(d) in r.echoes
  {
    hide HasN;
    assert Good(d) != BAD by {
      assert |Good(d).finalPreprepares| == 2;
    }
    forall s | 0 < s <= 2 ensures Opened(r.log, 1, s) {
      IntervalOpens(r.log, 1, s, s);
    }
  }

  lemma ReadiedOne(r: Replica, r': Replica, k: NewEpochConfig, own: NewEpochConfig)
    requires Echoing(r, own) && (r' == ReadiedState(r, k) || r' == JoinedState(r, k))
    ensures r'.phase == Readied && r'.epoch == 3 && r'.lastCheckpoint == 0 && k in r'.readies
    ensures r'.echoed == Some(own) && r'.echoes == {FIRST, own}
  {
    hide HasN;
    hide ReadyLog;
    hide CarriedVotes;
  }

  lemma MayJoinGood(r: Replica, own: NewEpochConfig)
    requires Echoing(r, own)
    ensures r.phase == Echoed && r.epoch == 3
  {
  }

  /** Everyone has sent ready for the verified configuration. */
  ghost predicate AllReadied(j: Joint, d: Digest) {
    && TwoCommitted(j, d)
    && forall i :: i in j.chain ==>
         var r := j.chain[i];
         r.phase == Readied && r.epoch == 3 && r.lastCheckpoint == 0 && Good(d) in r.readies
         && r.echoed == Some(if i == 2 then BAD else Good(d)) && r.echoes == {FIRST, r.echoed.value}
  }

  lemma TwoReady(batch: seq<RequestAck>) returns (j0: Joint, j: Joint)
    requires batch != []
    ensures
      var d := HashBatch(batch);
      && At(1, j) && TwoEchoes(j0, d) && Moved(j0, j, {0, 1}) && j.chain[0] == ReadiedState(j0.chain[0], Good(d))
      && j.chain[1] == ReadiedState(j0.chain[1], Good(d))
  {
    hide At;
    hide NetworkGrows;
    hide ByPhases;
    hide Prepared4;
    hide Echoing;
    hide ReadiedState;
    hide HashBatch;
    hide Good;
    hide IsQuorum;
    hide Four;
    var d := HashBatch(batch);
    Pairs(1);
    j0 := AllEcho(batch);
    MayReadyGood(j0.chain[0], d);
    MayReadyGood(j0.chain[1], d);
    j := ReadyOn(1, j0, {0, 1}, Good(d), {0, 1, 3});
  }

  lemma AllReady(batch: seq<RequestAck>) returns (j: Joint)
    requires batch != []
    ensures At(1, j) && AllReadied(j, HashBatch(batch))
  {
    hide At;
    hide NetworkGrows;
    hide ByPhases;
    hide Echoing;
    hide ReadiedState;
    hide JoinedState;
    hide HashBatch;
    hide Good;
    hide IsQuorum;
    hide NodeSet;
    hide Four;
    hide AllReadied;
    var d := HashBatch(batch);
    Pairs(1);
    InEpochThree(d);
    var j0, j1 := TwoReady(batch);
    ReadiedOne(j0.chain[0], j1.chain[0], Good(d), Good(d));
    ReadiedOne(j0.chain[1], j1.chain[1], Good(d), Good(d));
    MayJoinGood(j0.chain[2], BAD);
    j := JoinOn(1, j1, {2}, Good(d), {0, 1});
    StillCommitted(j0, j1, d);
    StillCommitted(j1, j, d);
    ShowsReadied(j0, j, d);
  }

  lemma ShowsReadied(j0: Joint, j: Joint, d: Digest)
    requires TwoEchoes(j0, d) && TwoCommitted(j, d)
    requires j.chain[0] == ReadiedState(j0.chain[0], Good(d)) && j.chain[1] == ReadiedState(j0.chain[1], Good(d))
    requires j.chain[2] == JoinedState(j0.chain[2], Good(d))
    ensures AllReadied(j, d)
  {
    hide ByPhases;
    hide Echoing;
    hide ReadiedState;
    hide JoinedState;
    hide Good;
    ReadiedOne(j0.chain[0], j.chain[0], Good(d), Good(d));
    ReadiedOne(j0.chain[1], j.chain[1], Good(d), Good(d));
    ReadiedOne(j0.chain[2], j.chain[2], Good(d), BAD);
  }

  /** A quorum prepared `d` at 1 in epoch 1 and nodes 0 and 1 committed it, so it is locked.  In epoch 3,
      whose window covers 1, node 2 echoed the null digest there and committed it on delivery, because not
      every echo was verified. */
  ghost predicate Replaced(j: Joint, d: Digest) {
    && j.chain.Keys == {0, 1, 2} && ByPhases(j, 0, 1, 1, d) && OnDelivery(j, 2, 3, 1, NullDigest) && d != NullDigest
    && PreparedQuorum(Four(1), FAULTY, j.chain, {0, 1, 3}, 1, 1, d) && Locked(Four(1), FAULTY, j.chain, 1, 1, d)
    && NoneEndsBelow(Four(1), j.chain, 1, 4, 1) && BAD in j.chain[2].echoes && !Verified(Four(1), FAULTY, j.chain, 1, 4)
  }

  lemma CommitsNull(r: Replica)
    requires r.echoed == Some(BAD) && r.lastCheckpoint == 0
    ensures Vote(3, 1, NullDigest) in Commits(r)
  {
    CarriedVote(BAD, Vote(3, 1, NullDigest));
    hide CarriedVotes;
  }

  lemma NoneEarly(g: Network, d: Digest)
    requires g.Keys == {0, 1, 2} && forall i :: i in g ==> g[i].echoes <= {FIRST, Good(d), BAD}
    ensures NoneEndsBelow(Four(1), g, 1, 4, 1)
  {
    forall i, k | i in g && k in g[i].echoes ensures k in {FIRST, Good(d), BAD} {
    }
  }

  lemma IsLocked(j: Joint, d: Digest)
    requires At(1, j) && TwoCommitted(j, d)
    ensures PreparedQuorum(Four(1), FAULTY, j.chain, {0, 1, 3}, 1, 1, d) && Locked(Four(1), FAULTY, j.chain, 1, 1, d)
  {
    hide Reached;
    hide ByPhases;
    hide Locked;
    FourFacts(1);
    PreparedLocked(Four(1), FAULTY, j.chain, {0, 1, 3}, 1, 1, d);
  }

  lemma NotVerified(j: Joint, d: Digest)
    requires At(1, j) && Locked(Four(1), FAULTY, j.chain, 1, 1, d) && NoneEndsBelow(Four(1), j.chain, 1, 4, 1)
    requires BAD in j.chain[2].echoes && d != NullDigest
    ensures !Verified(Four(1), FAULTY, j.chain, 1, 4)
  {
    hide Reached;
    hide JointInv;
    hide Inv;
    hide Locked;
    hide Verified;
    AtInv(1, j);
    if Verified(Four(1), FAULTY, j.chain, 1, 4) {
      LockedCarries(Four(1), FAULTY, j.chain, 1, 1, d, 2, BAD);
      assert false;
    }
  }

  lemma VerifiedMayBeReplaced(batch: seq<RequestAck>) returns (run: seq<Joint>)
    requires batch != []
    ensures IsJointRun(Four(1), FAULTY, run, 0, GENESIS) && Replaced(run[|run| - 1], HashBatch(batch))
  {
    hide At;
    hide NetworkGrows;
    hide ByPhases;
    hide CarriedVotes;
    hide Commits;
    hide Locked;
    hide Verified;
    hide NoneEndsBelow;
    hide PreparedQuorum;
    hide IsQuorum;
    hide Four;
    var d := HashBatch(batch);
    assert d != NullDigest;
    hide HashBatch;
    Pairs(1);
    InEpochThree(d);
    var j0 := AllReady(batch);
    var j := DeliverOn(1, j0, {2}, Good(d), {0, 1, 2});
    CommitsNull(j0.chain[2]);
    NoneEarly(j.chain, d);
    hide Good;
    StillCommitted(j0, j, d);
    IsLocked(j, d);
    NotVerified(j, d);
    run := ReachedBy(1, j);
  }
}
