/** A replica may commit with fewer than a quorum of committers, because the owner's commit is counted
    once before the batch is hashed and once after. */
module DoubleCount {
  import opened Types
  import opened Quorums
  import opened EpochChanges
  import opened Sequences
  import opened ThreePhase
  import FourNodes
  import SR = SlotRuns

  const NET := FourNodes.Four(2)
  const FAULTY := FourNodes.FAULTY

  /** The faulty node 3 owns the sequence. */
  const OWNER: NodeId := 3

  function Three(a: Replica, b: Replica): Network {
    map[0 := a, 1 := b, 2 := Fresh(NET, OWNER, 2)]
  }

  const START := Three(Fresh(NET, OWNER, 0), Fresh(NET, OWNER, 1))

  /** Reached by events at nodes 0 and 1. */
  ghost predicate Reached(g: Network) {
    SR.Reaches(NET, FAULTY, OWNER, {0, 1}, START, g)
  }

  lemma StartsFresh()
    ensures IsRun(NET, FAULTY, OWNER, [START]) && Inv(NET, FAULTY, OWNER, START) && OWNER in NodeSet(NET)
  {
    FourNodes.FourFacts(2);
    assert START.Keys == {0, 1, 2};
    hide FourNodes.Four;
    hide NodeSet;
    hide FaultBound;
    hide Fresh;
    FreshInv(NET, FAULTY, OWNER, START);
  }

  lemma {:induction false} PathKeepsInv(path: seq<Network>, t: nat)
    requires SR.IsPath(NET, FAULTY, OWNER, {0, 1}, path) && path[0] == START && t < |path|
    ensures Inv(NET, FAULTY, OWNER, path[t])
  {
    hide Inv;
    hide Next;
    StartsFresh();
    if t > 0 {
      PathKeepsInv(path, t - 1);
      assert SR.Moves(NET, FAULTY, OWNER, {0, 1}, path[t - 1], path[t]);
      var i, event :| i in {0, 1} && Next(NET, FAULTY, OWNER, path[t - 1], path[t], i, event);
      NextKeepsInv(NET, FAULTY, OWNER, path[t - 1], path[t], i, event);
    }
  }

  lemma ReachedInv(g: Network)
    requires Reached(g)
    ensures Inv(NET, FAULTY, OWNER, g)
  {
    hide Inv;
    var path :| SR.Leads(NET, FAULTY, OWNER, {0, 1}, path, START, g);
    PathKeepsInv(path, |path| - 1);
  }

  lemma Extend(g: Network, i: NodeId, event: Event)
    requires Reached(g) && i in {0, 1} && i in g && Enabled(g[i], event) && Deliverable(FAULTY, g, OWNER, event)
    requires event.GotPrepare? || event.GotCommit? ==> event.source in NodeSet(NET)
    ensures Reached(g[i := Handle(g[i], event)])
  {
    hide Handle;
    hide Enabled;
    hide Deliverable;
    hide Inv;
    hide NodeSet;
    hide SR.Reaches;
    ReachedInv(g);
    StartsFresh();
    SR.Steps(NET, FAULTY, OWNER, {0, 1}, g, i, event);
    SR.Follows(NET, FAULTY, OWNER, {0, 1}, START, g, g[i := Handle(g[i], event)]);
  }

  // ---------------------------------------------------------------- what the replicas become

  function Waiting(me: NodeId, batch: seq<RequestAck>): Replica {
    Fresh(NET, OWNER, me).(seq_ := NewSequence(OWNER, me, 3).(phase := AllReady, batch := batch), hashing := Some(batch))
  }

  /** The owner's commit is counted before the batch is hashed. */
  function Early(batch: seq<RequestAck>): Replica {
    var d, r := HashBatch(batch), Waiting(0, batch);
    r.(seq_ := r.seq_.(choices := map[3 := Choice(SaidCommit, None)], commits := map[d := 1]),
       heard := map[d := {3}], early := Some(d))
  }

  function Voting(r: Replica): Replica {
    var d := HashBatch(r.seq_.batch);
    r.(seq_ := r.seq_.(phase := Preprepared, digest := d, choices := map[3 := Choice(SaidPrepare, Some(d))],
                       prepares := map[d := 1]),
       hashing := None, prepared := {d})
  }

  function Supported(r: Replica): Replica {
    var s, d := r.seq_, r.seq_.digest;
    r.(seq_ := s.(choices := s.choices[0 := Choice(SaidPrepare, Some(d))], prepares := map[d := 2]))
  }

  function Preparing(r: Replica): Replica {
    var s, d := r.seq_, r.seq_.digest;
    r.(seq_ := s.(phase := Prepared, choices := s.choices[1 := Choice(SaidPrepare, Some(d))], prepares := map[d := 3]),
       committed := {d})
  }

  /** The owner's commit is counted again. */
  function Late(r: Replica): Replica {
    var s, d := r.seq_, r.seq_.digest;
    r.(seq_ := s.(choices := s.choices[3 := Choice(SaidCommit, Some(d))], commits := map[d := 2]), late := Some(d))
  }

  function Committing(r: Replica): Replica {
    var s, d := r.seq_, r.seq_.digest;
    r.(seq_ := s.(phase := Committed, choices := s.choices[0 := Choice(SaidCommit, Some(d))], commits := map[d := 3]),
       heard := map[d := {0, 3}])
  }

  lemma OnePass(s: SeqState, s1: SeqState, out: seq<Action>)
    requires Pass(s) == (s1, out) && s1.phase != s.phase && Pass(s1) == (s1, [])
    ensures Advance(s) == (s1, out)
  {
    assert Advance(s1) == (s1, []);
    assert out + [] == out;
  }

  lemma Waits(me: NodeId, batch: seq<RequestAck>)
    requires me != OWNER && batch != []
    ensures Handle(Fresh(NET, OWNER, me), GotPreprepare(batch, {})) == Waiting(me, batch)
  {
    assert IntersectionQuorum(NET) == 3;
    var s := NewSequence(OWNER, me, 3).(batch := batch, phase := PendingRequests);
    OnePass(s, s.(phase := AllReady), []);
    assert [Hash(batch)] + [] == [Hash(batch)];
    assert PreparesIn([Hash(batch)]) == {} && CommitsIn([Hash(batch)]) == {};
  }

  lemma CountsEarly(batch: seq<RequestAck>)
    requires batch != []
    ensures Handle(Waiting(0, batch), GotCommit(3, HashBatch(batch))) == Early(batch)
  {
    var s, d := Early(batch).seq_, HashBatch(batch);
    assert Pass(s) == (s, []);
    var waiting := Waiting(0, batch);
    assert waiting.seq_.choices[3 := Choice(SaidCommit, None)] == s.choices && waiting.seq_.commits[d := 1] == s.commits;
    var three: set<NodeId> := {3};
    assert {} + three == three && waiting.heard[d := three] == map[d := three];
    assert ApplyCommit(waiting.seq_, 3, d) == (s, []);
  }

  lemma Votes(r: Replica)
    requires r.hashing == Some(r.seq_.batch) && r.seq_.phase == AllReady && r.seq_.batch != []
    requires r.seq_.owner == OWNER != r.seq_.me
    requires r.seq_.prepares == map[] && r.seq_.choices.Keys <= {3} && r.prepared == {} && r.committed == {}
    ensures Handle(r, HashDone) == Voting(r)
  {
    var s1, d := Voting(r).seq_, HashBatch(r.seq_.batch);
    var s := s1.(phase := AllReady);
    var out := [PersistQ(d, s.batch), SendPrepare(d)];
    OnePass(s, s1, out);
    assert r.seq_.choices[3 := Choice(SaidPrepare, Some(d))] == s.choices && r.seq_.prepares[d := 1] == s.prepares;
    assert ApplyHash(r.seq_, d) == (s1, out);
    assert out[1].SendPrepare?;
    assert PreparesIn(out) == {d} && CommitsIn(out) == {};
  }

  lemma IsSupported(r: Replica)
    requires r.seq_.phase == Preprepared && r.seq_.quorum == 3 && r.seq_.me == 0 && r.seq_.owner == OWNER
    requires 0 !in r.seq_.choices && r.seq_.prepares == map[r.seq_.digest := 1]
    ensures Handle(r, GotPrepare(0, r.seq_.digest)) == Supported(r)
  {
    var s := Supported(r).seq_;
    assert Pass(s) == (s, []);
  }

  lemma Prepares(r: Replica)
    requires r.seq_.phase == Preprepared && r.seq_.quorum == 3 && r.seq_.me == 0 && r.seq_.owner == OWNER
    requires 1 !in r.seq_.choices && r.seq_.prepares == map[r.seq_.digest := 2] && r.committed == {}
    requires 0 in r.seq_.choices && r.seq_.choices[0] == Choice(SaidPrepare, Some(r.seq_.digest))
    ensures Handle(r, GotPrepare(1, r.seq_.digest)) == Preparing(r)
  {
    var s1, d := Preparing(r).seq_, r.seq_.digest;
    var out := [PersistP(d), SendCommit(d)];
    OnePass(s1.(phase := Preprepared), s1, out);
    assert r.seq_.prepares[d := 3] == s1.prepares;
    assert ApplyPrepare(r.seq_, 1, d) == (s1, out);
    assert out[1].SendCommit?;
    assert PreparesIn(out) == {} && CommitsIn(out) == {d};
  }

  lemma CountsLate(r: Replica)
    requires r.seq_.phase == Prepared && r.seq_.me == 0 && r.seq_.owner == OWNER && r.hashing.None?
    requires 3 in r.seq_.choices && r.seq_.choices[3] == Choice(SaidPrepare, Some(r.seq_.digest))
    requires 0 in r.seq_.choices && r.seq_.choices[0].said == SaidPrepare
    requires r.seq_.commits == map[r.seq_.digest := 1] && r.heard == map[r.seq_.digest := {3}]
    ensures Handle(r, GotCommit(3, r.seq_.digest)) == Late(r)
  {
    var s := Late(r).seq_;
    assert Pass(s) == (s, []);
    assert {3} + {3} == {3};
  }

  lemma Commits(r: Replica)
    requires r.seq_.phase == Prepared && r.seq_.quorum == 3 && r.seq_.me == 0 && r.seq_.owner == OWNER && r.hashing.None?
    requires 0 in r.seq_.choices && r.seq_.choices[0] == Choice(SaidPrepare, Some(r.seq_.digest))
    requires r.seq_.commits == map[r.seq_.digest := 2] && r.heard == map[r.seq_.digest := {3}]
    requires r.seq_.digest in r.committed
    ensures Handle(r, GotCommit(0, r.seq_.digest)) == Committing(r)
  {
    var s1 := Committing(r).seq_;
    OnePass(s1.(phase := Prepared), s1, []);
    var d := r.seq_.digest;
    var three: set<NodeId>, both: set<NodeId> := {3}, {0, 3};
    assert r.seq_.commits[d := 3] == s1.commits && three + {0} == both && r.heard[d := both] == map[d := both];
    assert ApplyCommit(r.seq_, 0, d) == (s1, []);
  }

  // ---------------------------------------------------------------- the run

  lemma Begins()
    ensures Reached(START)
  {
    SR.Stays(NET, FAULTY, OWNER, {0, 1}, START);
  }

  lemma Step0(a: Replica, b: Replica, event: Event)
    requires Reached(Three(a, b)) && Enabled(a, event) && Deliverable(FAULTY, Three(a, b), OWNER, event)
    requires event.GotPrepare? || event.GotCommit? ==> event.source <= 3
    ensures Reached(Three(Handle(a, event), b))
  {
    hide Reached;
    hide Handle;
    hide Enabled;
    FourNodes.FourFacts(2);
    Extend(Three(a, b), 0, event);
    assert Three(a, b)[0 := Handle(a, event)] == Three(Handle(a, event), b);
  }

  lemma Step1(a: Replica, b: Replica, event: Event)
    requires Reached(Three(a, b)) && Enabled(b, event) && Deliverable(FAULTY, Three(a, b), OWNER, event)
    requires event.GotPrepare? || event.GotCommit? ==> event.source <= 3
    ensures Reached(Three(a, Handle(b, event)))
  {
    hide Reached;
    hide Handle;
    hide Enabled;
    FourNodes.FourFacts(2);
    Extend(Three(a, b), 1, event);
    assert Three(a, b)[1 := Handle(b, event)] == Three(a, Handle(b, event));
  }

  lemma BothVote(batch: seq<RequestAck>)
    requires batch != []
    ensures Reached(Three(Voting(Early(batch)), Voting(Waiting(1, batch))))
  {
    hide Reached;
    hide Handle;
    var fresh0, fresh1 := Fresh(NET, OWNER, 0), Fresh(NET, OWNER, 1);
    Begins();
    Waits(0, batch);
    Waits(1, batch);
    CountsEarly(batch);
    Votes(Early(batch));
    Votes(Waiting(1, batch));
    Step0(fresh0, fresh1, GotPreprepare(batch, {}));
    Step0(Waiting(0, batch), fresh1, GotCommit(3, HashBatch(batch)));
    Step0(Early(batch), fresh1, HashDone);
    Step1(Voting(Early(batch)), fresh1, GotPreprepare(batch, {}));
    Step1(Voting(Early(batch)), Waiting(1, batch), HashDone);
  }

  ghost function Committer(batch: seq<RequestAck>): Replica {
    Committing(Late(Preparing(Supported(Voting(Early(batch))))))
  }

  lemma OneCommits(batch: seq<RequestAck>)
    requires batch != []
    ensures Reached(Three(Committer(batch), Voting(Waiting(1, batch))))
  {
    hide Reached;
    hide Handle;
    BothVote(batch);
    var a, b, d := Voting(Early(batch)), Voting(Waiting(1, batch)), HashBatch(batch);
    IsSupported(a);
    Step0(a, b, GotPrepare(0, d));
    Prepares(Supported(a));
    Step0(Supported(a), b, GotPrepare(1, d));
    var p := Preparing(Supported(a));
    CountsLate(p);
    Step0(p, b, GotCommit(3, d));
    Commits(Late(p));
    Step0(Late(p), b, GotCommit(0, d));
  }

  /** With one faulty node of four, node 0 is committed having counted two nodes, itself and the owner;
      no other correct node is prepared, so a quorum knows nothing of the digest. */
  ghost predicate CommittedAlone(g: Network, batch: seq<RequestAck>) {
    && 0 in g && g[0].seq_.phase == Committed && g[0].seq_.digest == HashBatch(batch)
    && Committers(g[0], g[0].seq_.digest) == {0, 3} && !IsQuorum(NET, {0, 3}) && FilledTwice(NET, g[0])
    && IsQuorum(NET, {1, 2, 3}) && !InEveryQuorum(NET, FAULTY, {0, 3})
    && forall n :: n in g && n != 0 ==> Rank(g[n].seq_.phase) < Rank(Prepared)
  }

  lemma OwnerCommitCountedTwice(batch: seq<RequestAck>) returns (run: seq<Network>)
    requires batch != []
    ensures IsRun(NET, FAULTY, OWNER, run) && CommittedAlone(run[|run| - 1], batch)
  {
    hide IsRun;
    hide SR.Reaches;
    OneCommits(batch);
    FourNodes.FourFacts(2);
    var g := Three(Committer(batch), Voting(Waiting(1, batch)));
    assert |{0, 3}| == 2;
    var quorum: set<NodeId> := {1, 2, 3};
    assert forall n :: n in quorum && n in {0, 3} ==> n in FAULTY;
    run := RunsTo(g);
  }

  lemma RunsTo(g: Network) returns (run: seq<Network>)
    requires Reached(g)
    ensures IsRun(NET, FAULTY, OWNER, run) && run[|run| - 1] == g
  {
    run :| SR.Leads(NET, FAULTY, OWNER, {0, 1}, run, START, g);
    StartsFresh();
    hide Next;
    hide FaultBound;
    hide NodeSet;
    forall t | 0 < t < |run| ensures NextAny(NET, FAULTY, OWNER, run[t - 1], run[t]) {
      assert SR.Moves(NET, FAULTY, OWNER, {0, 1}, run[t - 1], run[t]);
      var i, event :| i in {0, 1} && Next(NET, FAULTY, OWNER, run[t - 1], run[t], i, event);
    }
    assert [START][0] == START;
  }
}
