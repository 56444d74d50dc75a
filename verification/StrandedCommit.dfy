/** An epoch may start with a commit above the last checkpoint, if that commit was not anchored. */
module StrandedCommit {
  import opened Types
  import opened Quorums
  import opened Intervals
  import opened EpochChanges
  import opened NewEpochConfigs
  import opened WriteAheadLog
  import opened ReplicaVotes
  import opened EpochChain
  import opened JointRuns
  import opened JointPaths
  import opened Scenarios
  import opened FourNodes
  import DoubleCount
  import S = Sequences
  import TP = ThreePhase
  import SR = SlotRuns

  /** Checkpoints are two sequence numbers apart. */
  const CI: nat := 2

  /** The faulty node leads epoch 3 and owns its sequences. */
  const THIRD := Config(3, [])
  const SLOT := Slot(3, 1)

  /** The correct node 0 leads epoch 4. */
  const LAST := Config(4, [])

  // ---------------------------------------------------------------- epochs 1 and 2 do not come about

  /** A node that has joined and left for epoch `e`. */
  ghost predicate Left(r: Replica, e: nat) {
    && Reads(r.log, BLANK) && r.epoch == e && !r.pending && r.lastCheckpoint == 0 && r.led == {}
    && (e > 0 ==> r.phase == Changing && e in r.changes && r.changes[e] == ChangeFor(BLANK, e))
  }

  lemma HasLeft(r: Replica, e: nat)
    requires Left(r, e)
    ensures MayLeave(r, BLANK, e + 1)
    ensures forall r' :: r' == Changed(r, BLANK, e + 1) && Reads(r'.log, BLANK) ==> Left(r', e + 1)
  {
    hide Reads;
  }

  lemma LeaveOn(j: Joint, e: nat) returns (j': Joint)
    requires At(CI, j) && j.phases == map[] && forall i :: i in j.chain ==> Left(j.chain[i], e)
    ensures At(CI, j') && j'.phases == map[] && forall i :: i in j'.chain ==> Left(j'.chain[i], e + 1)
  {
    hide At;
    hide Reads;
    hide Left;
    hide MayLeave;
    hide Changed;
    hide KeepsN;
    hide NetworkGrows;
    InChain(CI, j);
    forall i | i in j.chain ensures MayLeave(j.chain[i], BLANK, e + 1) {
      HasLeft(j.chain[i], e);
    }
    j' := Leave(CI, j, All(BLANK), e + 1);
    forall i | i in j'.chain ensures Left(j'.chain[i], e + 1) {
      assert i in All(BLANK);
      HasLeft(j.chain[i], e);
    }
  }

  lemma StartLeft()
    ensures Left(Initial(0, GENESIS), 0)
  {
    hide Reads;
    GenesisReads();
  }

  lemma AllLeave() returns (j: Joint)
    ensures At(CI, j) && j.phases == map[] && forall i :: i in j.chain ==> Left(j.chain[i], 3)
  {
    hide At;
    hide Left;
    hide Initial;
    StartLeft();
    var j0 := Genesis(CI);
    var j1 := LeaveOn(j0, 0);
    var j2 := LeaveOn(j1, 1);
    j := LeaveOn(j2, 2);
  }

  // ---------------------------------------------------------------- epoch 3: a commit that is not anchored

  /** A node at work in epoch 3. */
  ghost predicate Working(r: Replica, x: Content) {
    && Reads(r.log, x) && HasN(r.log, 1) && r.epoch == 3 && r.phase == Active && r.echoed == Some(THIRD) && THIRD in r.adopted
    && !r.pending && r.lastCheckpoint == 0 && r.led == {}
  }

  lemma MayHear(r: Replica)
    requires Left(r, 3)
    ensures Hearing(CI, r, BLANK, THIRD) && r.lastCheckpoint == 0 && 3 in r.changes && r.changes[3] == ChangeFor(BLANK, 3)
  {
    hide Reads;
  }

  lemma GoesToWork(r: Replica, r': Replica)
    requires Left(r, 3) && AtWork(r, r', THIRD) && Reads(r'.log, BLANK.(tag := THIRD.config.number)) && HasN(r'.log, 1)
    ensures Working(r', BLANK.(tag := 3))
  {
    hide Reads;
    hide HasN;
  }

  lemma ThirdJustified(j: Joint)
    requires At(CI, j) && forall i :: i in j.chain ==> Left(j.chain[i], 3)
    ensures FromLeader(Four(CI), FAULTY, j.chain, THIRD) && Justified(Four(CI), FAULTY, j.chain, THIRD)
    ensures forall i :: i in j.chain ==> Hearing(CI, j.chain[i], BLANK, THIRD) && j.chain[i].lastCheckpoint == 0
  {
    hide At;
    hide Justified;
    hide FromLeader;
    hide Hearing;
    hide Left;
    InChain(CI, j);
    forall i | i in j.chain
      ensures Hearing(CI, j.chain[i], BLANK, THIRD) && j.chain[i].lastCheckpoint == 0
      ensures 3 in j.chain[i].changes && j.chain[i].changes[3] == ChangeFor(BLANK, 3)
    {
      MayHear(j.chain[i]);
    }
    QuietJustified(CI, j.chain, BLANK, BLANK, 3);
    FaultyLeads(CI, j.chain, THIRD);
  }

  lemma AllWork() returns (j: Joint)
    ensures At(CI, j) && j.phases == map[] && forall i :: i in j.chain ==> Working(j.chain[i], BLANK.(tag := 3))
  {
    hide At;
    hide Reads;
    hide HasN;
    hide KeepsN;
    hide NetworkGrows;
    hide Justified;
    hide FromLeader;
    hide Hearing;
    hide Left;
    hide AtWork;
    hide Working;
    hide IsQuorum;
    hide Four;
    var j0 := AllLeave();
    InChain(CI, j0);
    ThirdJustified(j0);
    Everyone(CI);
    var x := All(BLANK);
    assert x.Keys + {3} == {0, 1, 2, 3};
    j := Settle(CI, j0, x, THIRD);
    forall i | i in j.chain ensures Working(j.chain[i], BLANK.(tag := 3)) {
      assert i in x;
      GoesToWork(j0.chain[i], j.chain[i]);
    }
  }

  function VoterReads(d: Digest): Content {
    Content(3, [ZERO], [], [SetEntry(3, 1, d)])
  }

  function Readings(d: Digest): map<NodeId, Content> {
    map[0 := VoterReads(d).(prepared := [SetEntry(3, 1, d)]), 1 := VoterReads(d), 2 := BLANK.(tag := 3)]
  }

  lemma MayVote(j: Joint)
    requires At(CI, j) && forall i :: i in j.chain ==> Working(j.chain[i], BLANK.(tag := 3))
    ensures Owns(Four(CI), j.chain, SLOT, 3) && 3 in NodeSet(Four(CI))
    ensures forall i :: i in j.chain ==> TakesPart(Four(CI), j.chain[i], SLOT)
  {
    hide Reached;
    hide Reads;
    hide HasN;
    hide TakesPart;
    hide Owns;
    LeaderOwns(CI, j.chain, 0, 3, [], 1);
    forall i | i in j.chain ensures TakesPart(Four(CI), j.chain[i], SLOT) {
      MayWork(CI, j, i, THIRD, 1, 1);
    }
  }

  ghost function Net(batch: seq<RequestAck>): TP.Network {
    DoubleCount.Three(DoubleCount.Committer(batch), DoubleCount.Voting(DoubleCount.Waiting(1, batch)))
  }

  lemma NetFacts(batch: seq<RequestAck>)
    ensures
      var net, d := Net(batch), HashBatch(batch);
      && net.Keys == {0, 1, 2} && net[2] == TP.Fresh(Four(CI), 3, 2)
      && net[0].seq_.phase == S.Committed && net[1].seq_.phase == S.Preprepared
      && net[0].seq_.digest == net[1].seq_.digest == d && net[0].seq_.batch == net[1].seq_.batch == batch
  {
    hide TP.Fresh;
  }

  lemma FreshIsStart(g: Network)
    requires g.Keys == {0, 1, 2}
    ensures FreshNet(Four(CI), g, 3) == DoubleCount.START
  {
    hide TP.Fresh;
    assert FreshNet(Four(CI), g, 3).Keys == {0, 1, 2} == DoubleCount.START.Keys;
  }

  lemma VotersWork(a: Replica, b: Replica, batch: seq<RequestAck>)
    requires Working(a, BLANK.(tag := 3)) && Working(b, BLANK.(tag := 3))
    ensures
      var x := Readings(HashBatch(batch));
      Working(AssignedState(a, 1, batch), x[0]) && Working(VotedState(b, 1, batch), x[1])
  {
    hide Reads;
    hide HasN;
    hide HashBatch;
    var x, entry := BLANK.(tag := 3), SetEntry(3, 1, HashBatch(batch));
    AssignedReads(a, x, 1, batch);
    VotedReads(b, x, 1, batch);
    assert x.prepared + [entry] == [entry] && x.preprepared + [entry] == [entry];
  }

  /** Node 0 commits on two nodes' commits, its own and the owner's counted twice. */
  lemma OneCommits(batch: seq<RequestAck>) returns (j: Joint)
    requires batch != []
    ensures At(CI, j) && ByPhases(j, 0, 3, 1, HashBatch(batch))
    ensures forall i :: i in j.chain ==> Working(j.chain[i], Readings(HashBatch(batch))[i])
  {
    hide At;
    hide Working;
    hide TakesPart;
    hide Owns;
    hide NetworkGrows;
    hide HashBatch;
    hide AssignedState;
    hide VotedState;
    hide Net;
    hide Logged;
    hide SR.Reaches;
    hide TP.Fresh;
    hide NodeSet;
    hide ByPhases;
    hide Four;
    var j0 := AllWork();
    InChain(CI, j0);
    MayVote(j0);
    FreshIsStart(j0.chain);
    var net := Net(batch);
    NetFacts(batch);
    IsReached(batch);
    hide FreshNet;
    j := AddSlot(CI, j0, SLOT, 3, {0, 1}, net);
    InChain(CI, j);
    ShowsCommit(j0, j, batch);
  }

  lemma ShowsCommit(j0: Joint, j: Joint, batch: seq<RequestAck>)
    requires j0.chain.Keys == j.chain.Keys == {0, 1, 2} && SLOT in j.phases && j.phases[SLOT].net == Net(batch)
    requires forall i :: i in j0.chain ==> Working(j0.chain[i], BLANK.(tag := 3))
    requires j.chain[2] == j0.chain[2] && 0 in Net(batch) && 1 in Net(batch)
    requires forall i :: i == 0 || i == 1 ==> j.chain[i] == Logged(j0.chain[i], SLOT, Net(batch)[i].seq_)
    ensures ByPhases(j, 0, 3, 1, HashBatch(batch))
    ensures forall i :: i in j.chain ==> Working(j.chain[i], Readings(HashBatch(batch))[i])
  {
    hide Working;
    hide HashBatch;
    hide AssignedState;
    hide VotedState;
    hide Logged;
    hide Net;
    hide TP.Fresh;
    NetFacts(batch);
    var net := Net(batch);
    LoggedVote(j0.chain[0], SLOT, net[0].seq_, batch);
    LoggedVote(j0.chain[1], SLOT, net[1].seq_, batch);
    VotersWork(j0.chain[0], j0.chain[1], batch);
  }

  lemma IsReached(batch: seq<RequestAck>)
    requires batch != []
    ensures SR.Reaches(Four(CI), FAULTY, 3, {0, 1}, DoubleCount.START, Net(batch))
  {
    hide SR.Reaches;
    DoubleCount.OneCommits(batch);
  }

  // ---------------------------------------------------------------- epoch 4: it starts below that commit

  /** A node that has left epoch 3. */
  ghost predicate Gone(r: Replica, x: Content) {
    && Hearing(CI, r, x, LAST) && r.lastCheckpoint == 0 && r.epoch == 4 && r.phase == Changing && 4 in r.changes
    && r.changes[4] == ChangeFor(x, 4) && (forall k :: k in r.led ==> k.config.number != 4)
  }

  lemma MayGo(r: Replica, x: Content)
    requires Working(r, x) && x.tag == 3
    ensures MayLeave(r, x, 4)
    ensures forall r' :: r' == Changed(r, x, 4) && Reads(r'.log, x) ==> Gone(r', x)
  {
    hide Reads;
    hide HasN;
  }

  lemma StillHears(r: Replica, x: Content)
    requires Gone(r, x)
    ensures Hearing(CI, LedState(r, LAST), x, LAST) && LedState(r, LAST).lastCheckpoint == 0
    ensures Hearing(CI, r, x, LAST) && r.lastCheckpoint == 0
  {
    hide Reads;
  }

  lemma LastOffered(batch: seq<RequestAck>) returns (j: Joint)
    requires batch != []
    ensures At(CI, j) && ByPhases(j, 0, 3, 1, HashBatch(batch))
    ensures FromLeader(Four(CI), FAULTY, j.chain, LAST) && Justified(Four(CI), FAULTY, j.chain, LAST)
    ensures forall i :: i in j.chain ==>
              Hearing(CI, j.chain[i], Readings(HashBatch(batch))[i], LAST) && j.chain[i].lastCheckpoint == 0
  {
    hide At;
    hide Reads;
    hide Working;
    hide KeepsN;
    hide NetworkGrows;
    hide Justified;
    hide FromLeader;
    hide Hearing;
    hide MayLeave;
    hide Changed;
    hide HashBatch;
    hide Four;
    var d := HashBatch(batch);
    var x := Readings(d);
    var j0 := OneCommits(batch);
    InChain(CI, j0);
    forall i | i in x ensures MayLeave(j0.chain[i], x[i], 4) {
      MayGo(j0.chain[i], x[i]);
    }
    var j1 := Leave(CI, j0, x, 4);
    InChain(CI, j1);
    forall i | i in x ensures Gone(j1.chain[i], x[i]) {
      MayGo(j0.chain[i], x[i]);
    }
    QuietJustified(CI, j1.chain, x[1], x[2], 4);
    hide ByPhases;
    j := LeadEpoch(CI, j1, 0, LAST);
    SamePhases(j0, j, d);
    hide Gone;
    forall i | i in j.chain ensures Hearing(CI, j.chain[i], x[i], LAST) && j.chain[i].lastCheckpoint == 0 {
      StillHears(j1.chain[i], x[i]);
    }
  }

  lemma SamePhases(j: Joint, j': Joint, d: Digest)
    requires ByPhases(j, 0, 3, 1, d) && j'.phases == j.phases
    ensures ByPhases(j', 0, 3, 1, d)
  {
  }

  /** Node 0 has just started epoch 4 at checkpoint 0, and has committed sequence 1 in epoch 3, inside
      the first checkpoint interval. */
  ghost predicate Stranded(j: Joint, batch: seq<RequestAck>) {
    && 0 in j.chain && j.chain[0].phase == Active && j.chain[0].epoch == 4
    && j.chain[0].echoed == Some(LAST) && j.chain[0].lastCheckpoint == End(LAST) == 0
    && ByPhases(j, 0, 3, 1, HashBatch(batch)) && 0 < 1 < Four(CI).checkpointInterval
  }

  lemma CommitMayBeStranded(batch: seq<RequestAck>) returns (run: seq<Joint>)
    requires batch != []
    ensures IsJointRun(Four(CI), FAULTY, run, 0, GENESIS) && Stranded(run[|run| - 1], batch)
  {
    hide At;
    hide Reads;
    hide HasN;
    hide KeepsN;
    hide NetworkGrows;
    hide Justified;
    hide FromLeader;
    hide Hearing;
    hide HashBatch;
    hide ByPhases;
    hide IsQuorum;
    hide AtWork;
    hide Stranded;
    hide Four;
    var d := HashBatch(batch);
    var x := Readings(d);
    var j0 := LastOffered(batch);
    InChain(CI, j0);
    Everyone(CI);
    assert x.Keys + {3} == {0, 1, 2, 3};
    var j := Settle(CI, j0, x, LAST);
    assert 0 in x;
    SamePhases(j0, j, d);
    ShowsStranded(j0, j, batch);
    run := ReachedBy(CI, j);
  }

  lemma ShowsStranded(j0: Joint, j: Joint, batch: seq<RequestAck>)
    requires 0 in j0.chain && 0 in j.chain && j0.chain[0].lastCheckpoint == 0 && AtWork(j0.chain[0], j.chain[0], LAST)
    requires ByPhases(j, 0, 3, 1, HashBatch(batch))
    ensures Stranded(j, batch)
  {
    hide ByPhases;
    hide HashBatch;
  }
}
