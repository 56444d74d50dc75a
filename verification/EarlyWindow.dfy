/** A new epoch may end below a sequence that a quorum has prepared, and then commit another batch there. */
module EarlyWindow {
  import opened Types
  import opened Quorums
  import opened Intervals
  import opened EpochChanges
  import opened NewEpochConfigs
  import opened WriteAheadLog
  import opened ReplicaVotes
  import opened EpochChain
  import opened JointRuns
  import opened JointPaths
  import opened Scenarios
  import opened FourNodes
  import Continuations

  const ONE := Checkpoint(1, 1)

  // ---------------------------------------------------------------- epoch 1: two nodes run ahead

  function Entries(d: Digest, n: nat): seq<SetEntry> {
    seq(n, i requires 0 <= i < n => SetEntry(1, i + 1, d))
  }

  /** A node that prepared `d` at 1 to `n`. */
  function Upto(d: Digest, n: nat, checkpoints: seq<Checkpoint>): Content {
    Content(1, checkpoints, Entries(d, n), Entries(d, n))
  }

  function AheadReads(d: Digest): Content {
    Upto(d, 3, [ZERO, ONE])
  }

  /** A node of epoch 1. */
  ghost predicate Working(r: Replica, x: Content, last: nat) {
    && Reads(r.log, x) && HasN(r.log, 1) && HasN(r.log, 2) && r.epoch == 1 && r.phase == Active && r.echoed == Some(FIRST)
    && FIRST in r.adopted && r.lastCheckpoint == last && !r.pending && r.echoes == {FIRST} && r.led <= {FIRST}
  }

  lemma FirstWorks(r: Replica)
    requires InFirst(r) && HasN(r.log, 2)
    ensures Working(r, BLANK.(tag := 1), 0)
  {
    hide Reads;
    hide HasN;
  }

  lemma AssignedWorks(r: Replica, d: Digest, n: nat, checkpoints: seq<Checkpoint>, last: nat, batch: seq<RequestAck>)
    requires Working(r, Upto(d, n, checkpoints), last) && d == HashBatch(batch)
    ensures var r' := AssignedState(r, n + 1, batch);
            Working(r', Upto(d, n + 1, checkpoints), last) && KeepsN(r.log, r'.log) && Vote(1, n + 1, d) in r'.prepares
  {
    hide Reads;
    hide HasN;
    hide HashBatch;
    var x := Upto(d, n, checkpoints);
    assert !Mentions(x.prepared, n + 1);
    AssignedReads(r, x, n + 1, batch);
    assert Entries(d, n) + [SetEntry(1, n + 1, d)] == Entries(d, n + 1);
  }

  lemma EveryAligned(s: nat)
    ensures Aligned(s, 1)
  {
  }

  lemma MayWorkAt(j: Joint, i: NodeId, x: Content, last: nat, s: nat)
    requires At(1, j) && i in j.chain && Working(j.chain[i], x, last) && s > last && s >= 1 && HasN(j.chain[i].log, s)
    ensures TakesPart(Four(1), j.chain[i], Slot(1, s)) && Owns(Four(1), j.chain, Slot(1, s), 1) && 1 in NodeSet(Four(1))
  {
    hide At;
    hide Reads;
    hide HasN;
    hide TakesPart;
    hide Owns;
    assert Aligned(s - 1, 1) by {
      EveryAligned(s - 1);
    }
    MayWork(1, j, i, FIRST, s, s);
    LeaderOwns(1, j.chain, i, 1, [], s);
  }

  /** Nodes 0 and 1 are ahead, having prepared up to `n`; node 2 has done nothing. */
  ghost predicate Ahead(j: Joint, d: Digest, n: nat, checkpoints: seq<Checkpoint>, last: nat) {
    && j.chain.Keys == {0, 1, 2} && Working(j.chain[2], BLANK.(tag := 1), 0)
    && (forall i :: i == 0 || i == 1 ==> Working(j.chain[i], Upto(d, n, checkpoints), last))
    && (forall slot :: slot in j.phases ==> slot.epoch == 1 && slot.seqNo <= n)
  }

  lemma FirstCommits(batch: seq<RequestAck>) returns (j: Joint)
    requires batch != []
    ensures
      var d := HashBatch(batch);
      At(1, j) && Ahead(j, d, 1, [ZERO], 0) && ByPhases(j, 0, 1, 1, d) && ByPhases(j, 1, 1, 1, d)
  {
    hide At;
    hide HasN;
    hide InFirst;
    hide Working;
    hide TakesPart;
    hide Owns;
    hide NetworkGrows;
    hide HashBatch;
    hide AssignedState;
    hide ByPhases;
    hide IsQuorum;
    hide KeepsN;
    hide Ahead;
    hide Four;
    var j0 := FirstTwoOpened();
    InChain(1, j0);
    Pairs(1);
    FirstSlot(1, j0);
    j := CommitSlot(1, j0, Slot(1, 1), {0, 1, 3}, batch);
    FirstAhead(j0, j, batch);
  }

  lemma FirstAhead(j0: Joint, j: Joint, batch: seq<RequestAck>)
    requires j0.chain.Keys == j.chain.Keys == {0, 1, 2} && j.phases.Keys == {Slot(1, 1)} && j.chain[2] == j0.chain[2]
    requires forall i :: i in j0.chain ==> InFirst(j0.chain[i]) && HasN(j0.chain[i].log, 2)
    requires forall i :: i == 0 || i == 1 ==> j.chain[i] == AssignedState(j0.chain[i], 1, batch)
    ensures Ahead(j, HashBatch(batch), 1, [ZERO], 0)
  {
    hide HasN;
    hide InFirst;
    hide Working;
    hide KeepsN;
    hide AssignedState;
    hide HashBatch;
    var d := HashBatch(batch);
    assert BLANK.(tag := 1) == Upto(d, 0, [ZERO]) by {
      assert Entries(d, 0) == [];
    }
    forall i | i in j0.chain ensures Working(j0.chain[i], BLANK.(tag := 1), 0) {
      FirstWorks(j0.chain[i]);
    }
    AssignedWorks(j0.chain[0], d, 0, [ZERO], 0, batch);
    AssignedWorks(j0.chain[1], d, 0, [ZERO], 0, batch);
  }

  lemma CheckpointedWorks(r: Replica, d: Digest, n: nat)
    requires Working(r, Upto(d, n, [ZERO]), 0)
    ensures Working(CheckpointedState(Four(1), RequestedState(r), 1), Upto(d, n, [ZERO, ONE]), 1)
  {
    hide Reads;
    hide HasN;
    CheckpointReads(Four(1), RequestedState(r), Upto(d, n, [ZERO]), 1);
    assert [ZERO] + [ONE] == [ZERO, ONE];
    KeepsIntervals(r.log, CEntry(1, 1));
  }

  lemma MayCheckpoint(j: Joint, i: NodeId, x: Content, d: Digest)
    requires i in j.chain && Working(j.chain[i], x, 0) && ByPhases(j, i, 1, 1, d)
    ensures IntervalCommitted(Four(1), j, i) && j.chain[i].phase == Active && !j.chain[i].pending
  {
    hide Reads;
    hide HasN;
    hide ByPhases;
    assert CommittedAt(j, i, 1, 1, d);
    assert HasCommitted(j, i, 1);
  }

  /** They take checkpoint 1, which moves the end of their window to 3. */
  lemma TwoCheckpoint(batch: seq<RequestAck>) returns (j: Joint)
    requires batch != []
    ensures At(1, j) && Ahead(j, HashBatch(batch), 1, [ZERO, ONE], 1)
  {
    hide At;
    hide Working;
    hide NetworkGrows;
    hide HashBatch;
    hide IntervalCommitted;
    hide CheckpointedState;
    hide Four;
    var d := HashBatch(batch);
    var j0 := FirstCommits(batch);
    MayCheckpoint(j0, 0, Upto(d, 1, [ZERO]), d);
    var j1 := CheckpointNext(1, j0, 0, 1);
    assert ByPhases(j1, 1, 1, 1, d);
    hide ByPhases;
    MayCheckpoint(j1, 1, Upto(d, 1, [ZERO]), d);
    j := CheckpointNext(1, j1, 1, 1);
    CheckpointedWorks(j0.chain[0], d, 1);
    CheckpointedWorks(j0.chain[1], d, 1);
  }

  lemma OpenedWorks(g: Network, i: NodeId, d: Digest)
    requires i in g && Working(g[i], Upto(d, 1, [ZERO, ONE]), 1)
    ensures var r := OpenedState(g[i], 3, FIRST.config);
            && MayMove(Four(1), FAULTY, g, i, r, Open(3, FIRST.config))
            && Working(r, Upto(d, 1, [ZERO, ONE]), 1) && HasN(r.log, 3)
  {
    hide Reads;
    hide HasN;
    MayOpenInterval(Four(1), g[i], 3, FIRST.config);
    OpenReads(g[i], Upto(d, 1, [ZERO, ONE]), 3, FIRST.config);
  }

  lemma TwoOpen(batch: seq<RequestAck>) returns (j: Joint)
    requires batch != []
    ensures At(1, j) && Ahead(j, HashBatch(batch), 1, [ZERO, ONE], 1) && HasN(j.chain[0].log, 3) && HasN(j.chain[1].log, 3)
  {
    hide At;
    hide Working;
    hide HasN;
    hide NetworkGrows;
    hide MayMove;
    hide HashBatch;
    hide OpenedState;
    hide Four;
    var d := HashBatch(batch);
    var j0 := TwoCheckpoint(batch);
    OpenedWorks(j0.chain, 0, d);
    OpenedWorks(j0.chain, 1, d);
    var after := map[0 := OpenedState(j0.chain[0], 3, FIRST.config), 1 := OpenedState(j0.chain[1], 3, FIRST.config)];
    j := Go(1, j0, after, Open(3, FIRST.config));
  }

  /** They prepare the next sequence. */
  lemma TwoPrepare(j: Joint, n: nat, batch: seq<RequestAck>) returns (j': Joint)
    requires At(1, j) && Ahead(j, HashBatch(batch), n, [ZERO, ONE], 1) && 1 <= n <= 2 && batch != []
    requires HasN(j.chain[0].log, 3) && HasN(j.chain[1].log, 3)
    ensures At(1, j') && Ahead(j', HashBatch(batch), n + 1, [ZERO, ONE], 1)
    ensures HasN(j'.chain[0].log, 3) && HasN(j'.chain[1].log, 3)
    ensures forall i :: i == 0 || i == 1 ==> Vote(1, n + 1, HashBatch(batch)) in j'.chain[i].prepares
  {
    hide At;
    hide HasN;
    hide Working;
    hide TakesPart;
    hide Owns;
    hide NetworkGrows;
    hide HashBatch;
    hide AssignedState;
    hide IsQuorum;
    hide NodeSet;
    hide Four;
    var d := HashBatch(batch);
    Pairs(1);
    forall i | i == 0 || i == 1
      ensures TakesPart(Four(1), j.chain[i], Slot(1, n + 1)) && Owns(Four(1), j.chain, Slot(1, n + 1), 1)
      ensures 1 in NodeSet(Four(1))
    {
      MayStepOn(j, i, d, n);
    }
    j' := PrepareSlot(1, j, Slot(1, n + 1), {0, 1, 3}, {0, 1}, batch);
    AssignedWorks(j.chain[0], d, n, [ZERO, ONE], 1, batch);
    AssignedWorks(j.chain[1], d, n, [ZERO, ONE], 1, batch);
  }

  lemma MayStepOn(j: Joint, i: NodeId, d: Digest, n: nat)
    requires At(1, j) && i in j.chain && Working(j.chain[i], Upto(d, n, [ZERO, ONE]), 1) && 1 <= n <= 2 && HasN(j.chain[i].log, 3)
    ensures TakesPart(Four(1), j.chain[i], Slot(1, n + 1)) && Owns(Four(1), j.chain, Slot(1, n + 1), 1)
    ensures 1 in NodeSet(Four(1))
  {
    hide At;
    hide Reads;
    hide HasN;
    hide TakesPart;
    hide Owns;
    assert HasN(j.chain[i].log, n + 1);
    MayWorkAt(j, i, Upto(d, n, [ZERO, ONE]), 1, n + 1);
  }

  lemma TwoAhead(batch: seq<RequestAck>) returns (j: Joint)
    requires batch != []
    ensures At(1, j) && Ahead(j, HashBatch(batch), 3, [ZERO, ONE], 1)
    ensures forall i :: i == 0 || i == 1 ==> Vote(1, 3, HashBatch(batch)) in j.chain[i].prepares
  {
    hide At;
    hide Ahead;
    hide HasN;
    hide HashBatch;
    var j0 := TwoOpen(batch);
    assert 0 in j0.chain && 1 in j0.chain by {
      InChain(1, j0);
    }
    var j1 := TwoPrepare(j0, 1, batch);
    j := TwoPrepare(j1, 2, batch);
  }

  // ---------------------------------------------------------------- epoch 2 ends at 2

  function Short(d: Digest): NewEpochConfig {
    Config(2, [d, d])
  }

  /** The faulty node vouches for the two digests. */
  function Claim(d: Digest): EpochChange {
    EpochChange(2, [ZERO], [], Entries(d, 2))
  }

  function Readings(d: Digest): map<NodeId, Content> {
    map[1 := AheadReads(d), 2 := BLANK.(tag := 1)]
  }

  ghost function Received(d: Digest): Changes {
    map[1 := Parsed(ChangeFor(AheadReads(d), 2)), 2 := Parsed(ChangeFor(BLANK.(tag := 1), 2)), 3 := Parsed(Claim(d))]
  }

  lemma AheadParsed(d: Digest, s: nat)
    requires s == 1 || s == 2
    ensures
      var m, entry := Parsed(ChangeFor(AheadReads(d), 2)), SetEntry(1, s, d);
      m.lowWatermark == 0 && s in m.pSet && m.pSet[s] == entry && A2Vote(m, s, entry)
  {
    hide A2Vote;
    var m, entry := ChangeFor(AheadReads(d), 2), SetEntry(1, s, d);
    LowestIsLeast(m.checkpoints);
    assert m.checkpoints[0] == ZERO;
    hide Lowest;
    assert m.pSet[s - 1] == entry && m.qSet[s - 1] == entry;
    PIndexContent(m.pSet, s, 1, d);
    ParsedVouches(m, entry);
  }

  lemma OthersParsed(d: Digest, s: nat)
    requires s == 1 || s == 2
    ensures
      var m, claim, entry := Parsed(ChangeFor(BLANK.(tag := 1), 2)), Parsed(Claim(d)), SetEntry(1, s, d);
      && m.lowWatermark == 0 && s !in m.pSet
      && claim.lowWatermark == 0 && s !in claim.pSet && A2Vote(claim, s, entry)
  {
    hide A2Vote;
    var m, claim, entry := ChangeFor(BLANK.(tag := 1), 2), Claim(d), SetEntry(1, s, d);
    ParsedLow(m);
    ParsedLow(claim);
    ParsedPrepared(m, s);
    ParsedPrepared(claim, s);
    assert claim.qSet[s - 1] == entry;
    ParsedVouches(claim, entry);
  }

  lemma ReceivedNames(d: Digest, key: Checkpoint)
    ensures Supporters([0, 1, 2, 3], Received(d), key) == if key == ZERO then [1, 2, 3] else if key == ONE then [1] else []
  {
    hide Supporters;
    hide Named;
    SupportersOfFour(Received(d), key);
    NamedOnce([ZERO, ONE], 1, key);
    NamedOnce([ZERO], 2, key);
    NamedOnce([ZERO], 3, key);
    assert [ZERO, ONE][0] == ZERO && [ZERO, ONE][1] == ONE;
  }

  lemma ReceivedAtZero(d: Digest)
    ensures AtZero(Received(d), 2) && AtOrBelow(Received(d), 0) == {1, 2, 3}
  {
    AheadParsed(d, 1);
    OthersParsed(d, 1);
    var ec := Received(d);
    assert ec[1].underlying.newEpoch == 2 && ec[2].underlying.newEpoch == 2 && ec[3].underlying.newEpoch == 2;
    hide Parsed;
    assert ec.Keys == {1, 2, 3};
  }

  lemma ReceivedEligible(d: Digest)
    ensures Eligible(Four(1), Received(d), ZERO) && !Eligible(Four(1), Received(d), ONE)
  {
    hide Supporters;
    hide Received;
    FourFacts(1);
    ReceivedAtZero(d);
    assert |{1, 2, 3}| == 3;
    ReceivedNames(d, ZERO);
    ReceivedNames(d, ONE);
  }

  lemma ReceivedScan(d: Digest)
    ensures IsOrder(Four(1), Received(d), [ZERO, ONE])
    ensures ScanInOrder(Four(1), Received(d), [ZERO, ONE]) == Best(Some(ZERO))
  {
    hide Supporters;
    hide Received;
    hide Eligible;
    var c, ec := Four(1), Received(d);
    forall key ensures key in [ZERO, ONE] <==> Supporters(c.nodes, ec, key) != [] {
      ReceivedNames(d, key);
    }
    ReceivedEligible(d);
    assert EpochChanges.Init([ZERO, ONE]) == [ZERO] && EpochChanges.Init([ZERO]) == [];
    assert ScanInOrder(c, ec, [ZERO]) == Best(Some(ZERO));
  }

  lemma ReceivedCarries(d: Digest, s: nat)
    requires s == 1 || s == 2
    ensures CarryAt(Four(1), Received(d), s) == Carried(d)
  {
    hide A2Vote;
    hide ScanInOrder;
    hide IsOrder;
    hide CarryAt;
    ReceivedAtZero(d);
    AheadParsed(d, s);
    OthersParsed(d, s);
    hide Parsed;
    CarriesEntry(1, Received(d), 2, s, SetEntry(1, s, d), 1, 3);
  }

  lemma ReceivedSent(d: Digest, g: Network)
    requires g.Keys == {0, 1, 2} && 2 in g[1].changes && 2 in g[2].changes
    requires g[1].changes[2] == ChangeFor(AheadReads(d), 2) && g[2].changes[2] == ChangeFor(BLANK.(tag := 1), 2)
    ensures forall i :: i in Received(d) ==> Received(d)[i] == Parsed(Received(d)[i].underlying)
    ensures forall i :: i in Received(d) ==> Sent(g, i, 2, Received(d)[i].underlying)
  {
    hide PIndex;
    hide QIndex;
    hide Lowest;
  }

  lemma ShortJustified(d: Digest, g: Network)
    requires g.Keys == {0, 1, 2} && 2 in g[1].changes && 2 in g[2].changes
    requires g[1].changes[2] == ChangeFor(AheadReads(d), 2) && g[2].changes[2] == ChangeFor(BLANK.(tag := 1), 2)
    ensures Justified(Four(1), FAULTY, g, Short(d))
  {
    hide IsOrder;
    hide OutcomeInOrder;
    hide Genuine;
    hide CarryAt;
    hide ScanInOrder;
    var ec := Received(d);
    ReceivedAtZero(d);
    ReceivedScan(d);
    ReceivedCarries(d, 1);
    ReceivedCarries(d, 2);
    PairChosen(ec, 2, [ZERO, ONE], d, d);
    ReceivedSent(d, g);
    hide Received;
    hide Parsed;
    hide Sent;
    IsGenuine(1, g, ec, 2);
    assert JustifiedBy(Four(1), FAULTY, g, Short(d), ec, Leaders(2), [ZERO, ONE]);
  }

  /** What the later steps leave alone. */
  ghost predicate Kept(j: Joint, d: Digest) {
    && j.chain.Keys == {0, 1, 2} && j.chain[0].echoes == {FIRST}
    && Vote(1, 3, d) in j.chain[0].prepares && Vote(1, 3, d) in j.chain[1].prepares
    && (forall slot :: slot in j.phases ==> slot.epoch == 1)
  }

  lemma StillKept(j: Joint, j': Joint, d: Digest)
    requires Kept(j, d) && Moved(j, j', {1, 2})
    ensures Kept(j', d)
  {
  }

  /** A node in epoch 2, waiting for its configuration. */
  ghost predicate Left(r: Replica, x: Content, last: nat, d: Digest) {
    && Hearing(1, r, x, Short(d)) && r.lastCheckpoint == last && !r.pending && r.epoch == 2 && r.phase == Changing
    && 2 in r.changes && r.changes[2] == ChangeFor(x, 2) && r.echoes == {FIRST}
  }

  lemma MayGo(r: Replica, x: Content, last: nat, d: Digest)
    requires Working(r, x, last) && x.tag == 1 && d != NullDigest
    ensures MayLeave(r, x, 2)
    ensures forall r' :: r' == Changed(r, x, 2) && Reads(r'.log, x) ==>
                           Left(r', x, last, d) && forall k :: k in r'.led ==> k.config.number != 2
  {
    hide Reads;
    hide HasN;
  }

  lemma StillLeft(r: Replica, x: Content, last: nat, d: Digest)
    requires Left(r, x, last, d)
    ensures Left(LedState(r, Short(d)), x, last, d)
  {
    hide Reads;
  }

  lemma ShortOffered(batch: seq<RequestAck>) returns (j: Joint)
    requires batch != []
    ensures
      var d := HashBatch(batch);
      && At(1, j) && Kept(j, d) && Left(j.chain[1], AheadReads(d), 1, d) && Left(j.chain[2], BLANK.(tag := 1), 0, d)
      && FromLeader(Four(1), FAULTY, j.chain, Short(d)) && Justified(Four(1), FAULTY, j.chain, Short(d))
  {
    hide At;
    hide Reads;
    hide Working;
    hide KeepsN;
    hide NetworkGrows;
    hide Justified;
    hide FromLeader;
    hide Hearing;
    hide MayLeave;
    hide Changed;
    hide Upto;
    hide Four;
    var d := HashBatch(batch);
    assert d != NullDigest;
    hide HashBatch;
    var x := Readings(d);
    var j0 := TwoAhead(batch);
    assert Kept(j0, d) by {
      EchoesFirst(j0.chain[0], AheadReads(d), 1);
    }
    AheadTag(d);
    MayGo(j0.chain[1], x[1], 1, d);
    MayGo(j0.chain[2], x[2], 0, d);
    var j1 := Leave(1, j0, x, 2);
    assert x.Keys == {1, 2} && 1 in x && 2 in x;
    StillKept(j0, j1, d);
    ShortJustified(d, j1.chain);
    j := LeadEpoch(1, j1, 2, Short(d));
    StillLeft(j1.chain[2], x[2], 0, d);
    assert Kept(j, d);
  }

  lemma AheadTag(d: Digest)
    ensures AheadReads(d).tag == 1
  {
  }

  lemma EchoesFirst(r: Replica, x: Content, last: nat)
    requires Working(r, x, last)
    ensures r.echoes == {FIRST}
  {
  }

  // ---------------------------------------------------------------- it is delivered and starts

  /** A node in epoch 2 after its echo. */
  ghost predicate Echoing(r: Replica, last: nat, d: Digest) {
    && r.phase == Echoed && r.epoch == 2 && r.lastCheckpoint == last && !r.pending && r.echoed == Some(Short(d))
    && r.echoes == {FIRST, Short(d)} && HasN(r.log, 1) && HasN(r.log, 2)
  }

  lemma HasEchoed(r: Replica, r': Replica, x: Content, last: nat, d: Digest)
    requires Left(r, x, last, d) && r' == EchoedState(Four(1), r, Short(d)) && HasN(r'.log, 1) && d != NullDigest
    ensures Echoing(r', last, d)
  {
    hide Reads;
    hide HasN;
    hide EchoLog;
    hide CarriedVotes;
    EchoOpens(Four(1), r.log, Short(d), StopAt(Four(1), r), 2);
  }

  lemma MayReadyShort(r: Replica, last: nat, d: Digest)
    requires Echoing(r, last, d)
    ensures Prepared4(1, r, Short(d)) && Short(d) in r.echoes
  {
    hide HasN;
    forall s | 0 < s <= 2 ensures Opened(r.log, 1, s) {
      IntervalOpens(r.log, 1, s, s);
    }
  }

  lemma EchoShort(batch: seq<RequestAck>) returns (j: Joint)
    requires batch != []
    ensures
      var d := HashBatch(batch);
      && At(1, j) && Kept(j, d) && Echoing(j.chain[1], 1, d) && Echoing(j.chain[2], 0, d)
      && Justified(Four(1), FAULTY, j.chain, Short(d))
  {
    hide At;
    hide Reads;
    hide HasN;
    hide KeepsN;
    hide NetworkGrows;
    hide Justified;
    hide FromLeader;
    hide Hearing;
    hide EchoedState;
    hide Echoing;
    hide AheadReads;
    hide Short;
    hide Four;
    var d := HashBatch(batch);
    assert d != NullDigest;
    hide HashBatch;
    var x := Readings(d);
    var j0 := ShortOffered(batch);
    j := Echoes(1, j0, x, Short(d));
    assert x.Keys == {1, 2} && 1 in x && 2 in x;
    StillKept(j0, j, d);
    HasEchoed(j0.chain[1], j.chain[1], x[1], 1, d);
    HasEchoed(j0.chain[2], j.chain[2], x[2], 0, d);
    StillJustified(Four(1), FAULTY, j0.chain, j.chain, Short(d));
  }

  /** A node in epoch 2 after its delivery, with what it committed. */
  ghost predicate Delivering(r: Replica, last: nat, d: Digest) {
    && r.phase == Delivered && r.epoch == 2 && r.lastCheckpoint == last && !r.pending && r.echoed == Some(Short(d))
    && r.echoes == {FIRST, Short(d)} && Short(d) in r.adopted
    && (forall s :: last < s <= 2 && s > 0 ==> Vote(2, s, d) in r.delivered)
  }

  lemma HasDelivered(r: Replica, r1: Replica, r2: Replica, last: nat, d: Digest)
    requires Echoing(r, last, d) && r1 == ReadiedState(r, Short(d))
    requires r2 == r1.(phase := Delivered, adopted := r1.adopted + {Short(d)}, delivered := r1.delivered + Commits(r1))
    ensures Delivering(r2, last, d)
  {
    hide HasN;
    hide ReadyLog;
    forall s | last < s <= 2 && s > 0 ensures Vote(2, s, d) in Commits(r1) {
      CarriedVote(Short(d), Vote(2, s, d));
    }
  }

  lemma ReadiedPhase(r: Replica, last: nat, d: Digest)
    requires Echoing(r, last, d)
    ensures var r1 := ReadiedState(r, Short(d)); r1.phase == Readied && r1.epoch == 2 && Short(d) in r1.readies
  {
    hide HasN;
    hide ReadyLog;
    hide CarriedVotes;
  }

  lemma ShortShape(d: Digest)
    ensures Short(d).config.number == 2
  {
  }

  lemma DeliverShort(batch: seq<RequestAck>) returns (j: Joint)
    requires batch != []
    ensures
      var d := HashBatch(batch);
      && At(1, j) && Kept(j, d) && Delivering(j.chain[1], 1, d) && Delivering(j.chain[2], 0, d)
      && Justified(Four(1), FAULTY, j.chain, Short(d))
  {
    hide *;
    var d := HashBatch(batch);
    var k := Short(d);
    ShortShape(d);
    Pairs(1);
    var j0 := EchoShort(batch);
    InChain(1, j0);
    MayReadyShort(j0.chain[1], 1, d);
    MayReadyShort(j0.chain[2], 0, d);
    var j1 := ReadyOn(1, j0, {1, 2}, k, {1, 2, 3});
    InChain(1, j1);
    StillKept(j0, j1, d);
    ReadiedPhase(j0.chain[1], 1, d);
    ReadiedPhase(j0.chain[2], 0, d);
    j := DeliverOn(1, j1, {1, 2}, k, {1, 2, 3});
    InChain(1, j);
    StillKept(j1, j, d);
    HasDelivered(j0.chain[1], j1.chain[1], j.chain[1], 1, d);
    HasDelivered(j0.chain[2], j1.chain[2], j.chain[2], 0, d);
    MovedGrows(j0, j1, {1, 2});
    MovedGrows(j1, j, {1, 2});
    GrowsOn(j0.chain, j1.chain, j.chain);
    StillJustified(Four(1), FAULTY, j0.chain, j.chain, k);
  }

  lemma MayCatchUp(j: Joint, i: NodeId, last: nat, d: Digest)
    requires i in j.chain && Delivering(j.chain[i], last, d) && last < 2
    ensures IntervalCommitted(Four(1), j, i) && j.chain[i].phase == Delivered && !j.chain[i].pending
    ensures Delivering(CheckpointedState(Four(1), RequestedState(j.chain[i]), last + 1), last + 1, d)
  {
    assert OnDelivery(j, i, 2, last + 1, d);
    assert CommittedAt(j, i, 2, last + 1, d);
    assert HasCommitted(j, i, last + 1);
  }

  /** A delivering node takes its next checkpoint. */
  lemma CatchUp(j: Joint, i: NodeId, last: nat, d: Digest) returns (j': Joint)
    requires At(1, j) && Kept(j, d) && (i == 1 || i == 2) && Delivering(j.chain[i], last, d) && last < 2
    requires Justified(Four(1), FAULTY, j.chain, Short(d))
    ensures At(1, j') && Kept(j', d) && Moved(j, j', {i}) && Delivering(j'.chain[i], last + 1, d)
    ensures Justified(Four(1), FAULTY, j'.chain, Short(d))
  {
    hide At;
    hide NetworkGrows;
    hide Justified;
    hide IntervalCommitted;
    hide Delivering;
    hide CheckpointedState;
    hide Four;
    MayCatchUp(j, i, last, d);
    j' := CheckpointNext(1, j, i, last + 1);
    StillKept(j, j', d);
    StillJustified(Four(1), FAULTY, j.chain, j'.chain, Short(d));
  }

  lemma MayStartShort(r: Replica, d: Digest)
    requires Delivering(r, 2, d)
    ensures r.phase == Delivered && r.echoed.Some? && r.lastCheckpoint == End(r.echoed.value)
    ensures Continuations.Works(Four(1), StartedState(r), Short(d), 3) && StartedState(r).echoes == {FIRST, Short(d)}
  {
  }

  lemma StartShort(batch: seq<RequestAck>) returns (j: Joint)
    requires batch != []
    ensures
      var d := HashBatch(batch);
      && At(1, j) && Kept(j, d) && Justified(Four(1), FAULTY, j.chain, Short(d))
      && forall i :: i == 1 || i == 2 ==>
           Continuations.Works(Four(1), j.chain[i], Short(d), 3) && j.chain[i].echoes == {FIRST, Short(d)}
  {
    hide At;
    hide NetworkGrows;
    hide Justified;
    hide Delivering;
    hide StartedState;
    hide Continuations.Works;
    hide HashBatch;
    hide Short;
    hide Four;
    var d := HashBatch(batch);
    var j0 := DeliverShort(batch);
    var j1 := CatchUp(j0, 1, 1, d);
    var j2 := CatchUp(j1, 2, 0, d);
    var j3 := CatchUp(j2, 2, 1, d);
    MayStartShort(j3.chain[1], d);
    MayStartShort(j3.chain[2], d);
    j := StartWork(1, j3, {1, 2});
    StillKept(j3, j, d);
    StillJustified(Four(1), FAULTY, j3.chain, j.chain, Short(d));
  }

  // ---------------------------------------------------------------- 3 is assigned afresh

  /** With one faulty node of four and an interval of 1, a quorum prepares `d` at 3 in epoch 1, and
      nodes 1 and 2 commit `d1` there in epoch 2, whose window ends at 2.  Its configuration was verified. */
  ghost predicate Reassigned(j: Joint, d: Digest, d1: Digest) {
    && PreparedQuorum(Four(1), FAULTY, j.chain, {0, 1, 3}, 1, 3, d)
    && PreparedQuorum(Four(1), FAULTY, j.chain, {1, 2, 3}, 2, 3, d1)
    && ByPhases(j, 1, 2, 3, d1) && ByPhases(j, 2, 2, 3, d1)
    && 1 in j.chain && Short(d) in j.chain[1].echoes && !NoneEndsBelow(Four(1), j.chain, 1, 3, 3)
    && Justified(Four(1), FAULTY, j.chain, Short(d))
  }

  lemma EndsBelow(g: Network, d: Digest)
    requires 1 in g && Short(d) in g[1].echoes
    ensures !NoneEndsBelow(Four(1), g, 1, 3, 3)
  {
  }

  lemma OwnerIsTwo(d: Digest)
    ensures OwnedIn(Four(1), Short(d), Slot(2, 3), 2) && 2 in NodeSet(Four(1)) && Short(d).config.number == 2
    ensures 3 > Short(d).startingCheckpoint.seqNo + Window(Four(1))
  {
    var c := Four(1);
    assert c.nodes[2] == 2;
  }

  lemma PreparedThree(j: Joint, d: Digest)
    requires Kept(j, d)
    ensures PreparedQuorum(Four(1), FAULTY, j.chain, {0, 1, 3}, 1, 3, d)
  {
    FourFacts(1);
  }

  lemma WindowMayEndEarly(batch: seq<RequestAck>, batch1: seq<RequestAck>) returns (run: seq<Joint>)
    requires batch != [] && batch1 != []
    ensures IsJointRun(Four(1), FAULTY, run, 0, GENESIS)
    ensures Reassigned(run[|run| - 1], HashBatch(batch), HashBatch(batch1))
  {
    hide Reached;
    hide JointInv;
    hide Inv;
    hide Reaches;
    hide NetworkGrows;
    hide Justified;
    hide PreparedQuorum;
    hide NoneEndsBelow;
    hide OwnedIn;
    hide ByPhases;
    hide Continuations.Works;
    hide HashBatch;
    hide IsQuorum;
    hide NodeSet;
    hide Four;
    var d := HashBatch(batch);
    var j0 := StartShort(batch);
    Pairs(1);
    AtInv(1, j0);
    OwnerIsTwo(d);
    PreparedThree(j0, d);
    hide Short;
    var j := Continuations.EarlyEndReassigns(Four(1), FAULTY, j0, {0, 1, 3}, {1, 2, 3}, 1, 3, d, Short(d), 2, batch1);
    Onwards(1, j0, j);
    StillShort(j0, j, d);
    EndsBelow(j.chain, d);
    run := ReachedBy(1, j);
  }

  lemma StillShort(j: Joint, j': Joint, d: Digest)
    requires NetworkGrows(j.chain, j'.chain) && 1 in j.chain && Short(d) in j.chain[1].echoes
    requires Justified(Four(1), FAULTY, j.chain, Short(d))
    ensures j'.chain.Keys == j.chain.Keys && Short(d) in j'.chain[1].echoes
    ensures Justified(Four(1), FAULTY, j'.chain, Short(d))
  {
    hide Justified;
    StillJustified(Four(1), FAULTY, j.chain, j'.chain, Short(d));
  }
}
