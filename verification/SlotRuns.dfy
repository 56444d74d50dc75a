/** What a set of replicas can bring about at one sequence number: they vote, prepare and commit a batch. */
module SlotRuns {
  import opened Types
  import opened Quorums
  import opened Sequences
  import opened ThreePhase

  // ---------------------------------------------------------------- paths of some replicas

  /** An event at a replica of `q`. */
  ghost predicate Moves(c: NetworkConfig, faulty: set<NodeId>, owner: NodeId, q: set<NodeId>, g: Network, g': Network) {
    exists i, event :: i in q && Next(c, faulty, owner, g, g', i, event)
  }

  ghost predicate IsPath(c: NetworkConfig, faulty: set<NodeId>, owner: NodeId, q: set<NodeId>, path: seq<Network>) {
    path != [] && forall t :: 0 < t < |path| ==> Moves(c, faulty, owner, q, path[t - 1], path[t])
  }

  ghost predicate Leads(c: NetworkConfig, faulty: set<NodeId>, owner: NodeId, q: set<NodeId>, path: seq<Network>,
                        g: Network, g': Network)
  {
    IsPath(c, faulty, owner, q, path) && path[0] == g && path[|path| - 1] == g'
  }

  ghost predicate Reaches(c: NetworkConfig, faulty: set<NodeId>, owner: NodeId, q: set<NodeId>, g: Network, g': Network) {
    exists path :: Leads(c, faulty, owner, q, path, g, g')
  }

  lemma Stays(c: NetworkConfig, faulty: set<NodeId>, owner: NodeId, q: set<NodeId>, g: Network)
    ensures Reaches(c, faulty, owner, q, g, g)
  {
    assert Leads(c, faulty, owner, q, [g], g, g);
  }

  lemma Follows(c: NetworkConfig, faulty: set<NodeId>, owner: NodeId, q: set<NodeId>, g: Network, g1: Network, g2: Network)
    requires Reaches(c, faulty, owner, q, g, g1) && Reaches(c, faulty, owner, q, g1, g2)
    ensures Reaches(c, faulty, owner, q, g, g2)
  {
    hide Moves;
    var a :| Leads(c, faulty, owner, q, a, g, g1);
    var b :| Leads(c, faulty, owner, q, b, g1, g2);
    var path := a + b[1..];
    forall t | 0 < t < |path| ensures Moves(c, faulty, owner, q, path[t - 1], path[t]) {
      if t < |a| {
        assert path[t - 1] == a[t - 1] && path[t] == a[t];
      } else {
        var u := t - |a| + 1;
        assert path[t] == b[u] && path[t - 1] == b[u - 1];
      }
    }
    assert Leads(c, faulty, owner, q, path, g, g2);
  }

  lemma Steps(c: NetworkConfig, faulty: set<NodeId>, owner: NodeId, q: set<NodeId>, g: Network, i: NodeId, event: Event)
    requires Inv(c, faulty, owner, g) && owner in NodeSet(c) && i in q && i in g && Enabled(g[i], event)
    requires Deliverable(faulty, g, owner, event)
    requires event.GotPrepare? || event.GotCommit? ==> event.source in NodeSet(c)
    ensures var g' := g[i := Handle(g[i], event)];
            Reaches(c, faulty, owner, q, g, g') && Inv(c, faulty, owner, g')
  {
    hide Inv;
    hide Handle;
    hide Enabled;
    hide Deliverable;
    var g' := g[i := Handle(g[i], event)];
    assert Next(c, faulty, owner, g, g', i, event);
    NextKeepsInv(c, faulty, owner, g, g', i, event);
    hide Next;
    assert Moves(c, faulty, owner, q, [g, g'][0], [g, g'][1]);
    assert Leads(c, faulty, owner, q, [g, g'], g, g');
  }

  lemma NodeInv(c: NetworkConfig, faulty: set<NodeId>, owner: NodeId, g: Network, i: NodeId)
    requires Inv(c, faulty, owner, g) && i in g
    ensures ReplicaInv(c, owner, i, g[i]) && CommitInv(g[i]) && Saturated(g[i].seq_)
    ensures g.Keys == NodeSet(c) - faulty
  {
    hide ReplicaInv;
    hide CommitInv;
    hide Truthful;
  }

  // ---------------------------------------------------------------- voting

  /** The replica has preprepared the batch and heard of nobody but the owner. */
  ghost predicate VotedFor(r: Replica, owner: NodeId, batch: seq<RequestAck>) {
    var s, d := r.seq_, HashBatch(batch);
    && s.batch == batch && s.digest == d && Hashed(r) && Rank(s.phase) >= Rank(Preprepared)
    && s.choices == map[owner := Choice(SaidPrepare, Some(d))] && s.commits == map[] && r.heard == map[] && !r.echoed
    && (if s.me == owner then r.proposed == Some(batch) else d in r.prepared)
    && (Rank(s.phase) >= Rank(Prepared) ==> d in r.committed)
  }

  /** Becoming prepared goes with a commit message. */
  lemma {:induction false} PreparingSends(s: SeqState)
    ensures Rank(Advance(s).0.phase) >= Rank(Prepared) > Rank(s.phase) ==> s.digest in CommitsIn(Advance(s).1)
    decreases 6 - Rank(s.phase)
  {
    var (next, out) := Pass(s);
    if next.phase != s.phase {
      PassThenAdvance(s);
      PreparingSends(next);
      SentInConcat(out, Advance(next).1);
      if next.phase == Prepared {
        assert out[1] == SendCommit(s.digest);
      }
    }
  }

  lemma Allocates(c: NetworkConfig, owner: NodeId, me: NodeId, batch: seq<RequestAck>)
    requires batch != []
    ensures
      var r := Fresh(c, owner, me);
      var event := if me == owner then Propose(batch) else GotPreprepare(batch, {});
      Enabled(r, event) && Handle(r, event) ==
        r.(seq_ := r.seq_.(phase := AllReady, batch := batch), hashing := Some(batch))
  {
    hide IntersectionQuorum;
    var r := Fresh(c, owner, me);
    var s := r.seq_.(batch := batch, phase := PendingRequests);
    var s1 := s.(phase := AllReady);
    assert Pass(s) == (s1, []) && Pass(s1) == (s1, []);
    assert Advance(s1) == (s1, []);
    PassThenAdvance(s);
    var none: seq<Action> := [];
    assert none + none == none;
    assert [Hash(batch)] + [] == [Hash(batch)];
    assert PreparesIn([Hash(batch)]) == {} && CommitsIn([Hash(batch)]) == {};
  }

  /** Hashing the batch makes it preprepared, and the replica says so. */
  lemma Hashes(r: Replica)
    requires r.hashing == Some(r.seq_.batch) && r.seq_.phase == AllReady && r.seq_.batch != [] && r.seq_.choices == map[]
    requires r.seq_.commits == map[] && r.heard == map[] && !r.echoed
    ensures VotedFor(Handle(r, HashDone), r.seq_.owner, r.seq_.batch)
  {
    var s, d, owner := r.seq_, HashBatch(r.seq_.batch), r.seq_.owner;
    var s0 := s.(digest := d, choices := s.choices[owner := Choice(SaidPrepare, Some(d))],
                 prepares := s.prepares[d := Count(s.prepares, d) + 1]);
    assert s0.choices == map[owner := Choice(SaidPrepare, Some(d))];
    assert ApplyHash(s, d) == Advance(s0);
    PassThenAdvance(s0);
    PreparingSends(s0);
    var (s1, out) := Pass(s0);
    assert out[1] == if s.owner == s.me then SendPreprepare(s.batch) else SendPrepare(d);
    SentInConcat(out, Advance(s1).1);
    assert s.me != owner ==> d in PreparesIn(out);
    assert s.me == owner ==> Proposes(out);
  }

  /** Replica `i` preprepares the batch, proposing it if it is the owner. */
  lemma Votes(c: NetworkConfig, faulty: set<NodeId>, owner: NodeId, q: set<NodeId>, g: Network, i: NodeId,
              batch: seq<RequestAck>) returns (g': Network)
    requires Inv(c, faulty, owner, g) && owner in NodeSet(c) && i in q && i in g && g[i] == Fresh(c, owner, i) && batch != []
    requires i != owner && owner !in faulty ==> owner in g && g[owner].proposed == Some(batch)
    ensures Reaches(c, faulty, owner, q, g, g') && Inv(c, faulty, owner, g')
    ensures g'.Keys == g.Keys && g' == g[i := g'[i]] && VotedFor(g'[i], owner, batch)
  {
    hide Inv;
    hide Reaches;
    hide Handle;
    hide NodeSet;
    Allocates(c, owner, i, batch);
    var event := if i == owner then Propose(batch) else GotPreprepare(batch, {});
    var g1 := g[i := Handle(g[i], event)];
    Steps(c, faulty, owner, q, g, i, event);
    Hashes(g1[i]);
    hide VotedFor;
    g' := g1[i := Handle(g1[i], HashDone)];
    Steps(c, faulty, owner, q, g1, i, HashDone);
    assert g' == g[i := g'[i]];
    Follows(c, faulty, owner, q, g, g1, g');
  }

  /** The correct members of `q` but not of `done` are untouched, those of `done` have voted. */
  ghost predicate Voting(c: NetworkConfig, faulty: set<NodeId>, owner: NodeId, g: Network, done: set<NodeId>, q: set<NodeId>,
                         batch: seq<RequestAck>)
  {
    && (forall i :: i in done && i !in faulty ==> i in g && VotedFor(g[i], owner, batch))
    && (forall i :: i in q && i !in done && i !in faulty ==> i in g && g[i] == Fresh(c, owner, i))
  }

  lemma {:induction false} VoteNext(c: NetworkConfig, faulty: set<NodeId>, owner: NodeId, q: set<NodeId>, g: Network,
                                    done: set<NodeId>, batch: seq<RequestAck>) returns (g': Network)
    requires Inv(c, faulty, owner, g) && owner in NodeSet(c) && done <= q && batch != []
    requires Voting(c, faulty, owner, g, done, q, batch)
    requires owner in faulty || (owner in done && owner in g && g[owner].proposed == Some(batch))
    ensures Reaches(c, faulty, owner, q, g, g') && Inv(c, faulty, owner, g') && g'.Keys == g.Keys
    ensures Voting(c, faulty, owner, g', q, q, batch) && forall i :: i in g && i !in q - done ==> g'[i] == g[i]
    decreases |q - done|
  {
    hide Inv;
    hide Reaches;
    hide VotedFor;
    hide NodeSet;
    if q == done {
      g' := g;
      Stays(c, faulty, owner, q, g);
    } else {
      var i :| i in q && i !in done;
      assert q - (done + {i}) == q - done - {i};
      if i in faulty {
        g' := VoteNext(c, faulty, owner, q, g, done + {i}, batch);
      } else {
        var g1 := Votes(c, faulty, owner, q, g, i, batch);
        g' := VoteNext(c, faulty, owner, q, g1, done + {i}, batch);
        Follows(c, faulty, owner, q, g, g1, g');
      }
    }
  }

  /** All correct members of `q` preprepare the batch, if its owner is one of them or faulty. */
  lemma AllVote(c: NetworkConfig, faulty: set<NodeId>, owner: NodeId, q: set<NodeId>, g: Network, batch: seq<RequestAck>)
    returns (g': Network)
    requires Inv(c, faulty, owner, g) && owner in NodeSet(c) && (owner in q || owner in faulty) && batch != []
    requires forall i :: i in q && i !in faulty ==> i in g && g[i] == Fresh(c, owner, i)
    ensures Reaches(c, faulty, owner, q, g, g') && Inv(c, faulty, owner, g') && g'.Keys == g.Keys
    ensures Voting(c, faulty, owner, g', q, q, batch) && forall i :: i in g && i !in q ==> g'[i] == g[i]
  {
    hide Inv;
    hide Reaches;
    hide NodeSet;
    if owner in faulty {
      hide VotedFor;
      g' := VoteNext(c, faulty, owner, q, g, {}, batch);
    } else {
      var g1 := Votes(c, faulty, owner, q, g, owner, batch);
      OwnerProposed(c, faulty, owner, g1, batch);
      hide VotedFor;
      g' := VoteNext(c, faulty, owner, q, g1, {owner}, batch);
      Follows(c, faulty, owner, q, g, g1, g');
    }
  }

  lemma OwnerProposed(c: NetworkConfig, faulty: set<NodeId>, owner: NodeId, g: Network, batch: seq<RequestAck>)
    requires Inv(c, faulty, owner, g) && owner in g && VotedFor(g[owner], owner, batch)
    ensures g[owner].proposed == Some(batch)
  {
    hide Inv;
    NodeInv(c, faulty, owner, g, owner);
  }

  // ---------------------------------------------------------------- preparing

  /** The replica holds the prepares of the nodes in `from` for its digest, and no commits. */
  ghost predicate Heard(r: Replica, owner: NodeId, batch: seq<RequestAck>, from: set<NodeId>) {
    var s, d := r.seq_, HashBatch(batch);
    && s.batch == batch && s.digest == d && Hashed(r) && Rank(s.phase) >= Rank(Preprepared)
    && s.choices.Keys == from + {owner} && (forall m :: m in s.choices ==> s.choices[m] == Choice(SaidPrepare, Some(d)))
    && s.commits == map[] && r.heard == map[] && !r.echoed
    && (if s.me == owner then r.proposed == Some(batch) else d in r.prepared)
    && (Rank(s.phase) >= Rank(Prepared) ==> d in r.committed)
  }

  lemma Hears(r: Replica, owner: NodeId, batch: seq<RequestAck>, from: set<NodeId>, m: NodeId)
    requires Heard(r, owner, batch, from) && r.seq_.owner == owner && m != owner && m !in from
    ensures Enabled(r, GotPrepare(m, HashBatch(batch)))
    ensures Heard(Handle(r, GotPrepare(m, HashBatch(batch))), owner, batch, from + {m})
  {
    hide Advance;
    var s, d := r.seq_, HashBatch(batch);
    PreparingSends(s.(choices := s.choices[m := Choice(SaidPrepare, Some(d))],
                      prepares := s.prepares[d := Count(s.prepares, d) + 1]));
  }

  /** One more prepare, from a node that has sent it. */
  lemma HearsOne(c: NetworkConfig, faulty: set<NodeId>, owner: NodeId, q: set<NodeId>, g: Network, i: NodeId,
                 batch: seq<RequestAck>, from: set<NodeId>, m: NodeId) returns (g': Network)
    requires Inv(c, faulty, owner, g) && owner in NodeSet(c) && i in q && i in g && m in NodeSet(c) && m != owner && m !in from
    requires Heard(g[i], owner, batch, from) && g[i].seq_.owner == owner
    requires m !in faulty ==> m in g && HashBatch(batch) in g[m].prepared
    ensures Reaches(c, faulty, owner, q, g, g') && Inv(c, faulty, owner, g')
    ensures g'.Keys == g.Keys && g' == g[i := g'[i]] && Heard(g'[i], owner, batch, from + {m})
    ensures g'[i].seq_.owner == owner && g[i].prepared <= g'[i].prepared
  {
    hide Inv;
    hide Reaches;
    hide NodeSet;
    hide HashBatch;
    hide Heard;
    hide Outcome;
    var event := GotPrepare(m, HashBatch(batch));
    Hears(g[i], owner, batch, from, m);
    Steps(c, faulty, owner, q, g, i, event);
    g' := g[i := Handle(g[i], event)];
    InvOwner(c, faulty, owner, g', i);
  }

  lemma {:induction false} Gathers(c: NetworkConfig, faulty: set<NodeId>, owner: NodeId, q: set<NodeId>, g: Network, i: NodeId,
                                   batch: seq<RequestAck>, from: set<NodeId>, all: set<NodeId>) returns (g': Network)
    requires Inv(c, faulty, owner, g) && owner in NodeSet(c) && i in q && i in g && from <= all <= NodeSet(c)
    requires owner !in all && Heard(g[i], owner, batch, from) && g[i].seq_.owner == owner
    requires forall m :: m in all && m !in faulty ==> m in g && HashBatch(batch) in g[m].prepared
    ensures Reaches(c, faulty, owner, q, g, g') && Inv(c, faulty, owner, g')
    ensures g'.Keys == g.Keys && g' == g[i := g'[i]] && Heard(g'[i], owner, batch, all)
    decreases |all - from|
  {
    hide Inv;
    hide Reaches;
    hide NodeSet;
    hide HashBatch;
    hide Heard;
    if from == all {
      g' := g;
      Stays(c, faulty, owner, q, g);
    } else {
      var m :| m in all && m !in from;
      assert all - (from + {m}) == all - from - {m};
      var g1 := HearsOne(c, faulty, owner, q, g, i, batch, from, m);
      g' := Gathers(c, faulty, owner, q, g1, i, batch, from + {m}, all);
      Follows(c, faulty, owner, q, g, g1, g');
    }
  }

  /** A replica that has voted and then heard from a quorum is prepared. */
  lemma HeardIsPrepared(c: NetworkConfig, faulty: set<NodeId>, owner: NodeId, g: Network, i: NodeId, batch: seq<RequestAck>,
                        from: set<NodeId>)
    requires Inv(c, faulty, owner, g) && i in g && Heard(g[i], owner, batch, from) && FaultBound(c, faulty)
    requires |from + {owner}| >= IntersectionQuorum(c) && i in from + {owner}
    ensures g[i].seq_.phase == Prepared && HashBatch(batch) in g[i].committed
  {
    hide Inv;
    hide CommitInv;
    hide NodeSet;
    hide HashBatch;
    NodeInv(c, faulty, owner, g, i);
    var s, d := g[i].seq_, HashBatch(batch);
    assert Voters(s.choices, d) == from + {owner};
    assert TalliedFor(g[i], d);
    assert c.Valid();
    assert Pass(s) == (s, []);
  }

  /** Prepared on the votes of `q` for the batch, and nothing counted beyond that. */
  ghost predicate PreparedBy(r: Replica, owner: NodeId, batch: seq<RequestAck>, q: set<NodeId>) {
    Heard(r, owner, batch, q - {owner}) && r.seq_.phase == Prepared && HashBatch(batch) in r.committed
  }

  lemma VotedHasHeard(r: Replica, owner: NodeId, batch: seq<RequestAck>)
    requires VotedFor(r, owner, batch)
    ensures Heard(r, owner, batch, {})
  {
  }

  /** The correct members of `q` have sent their prepares. */
  ghost predicate AllSent(faulty: set<NodeId>, owner: NodeId, g: Network, q: set<NodeId>, batch: seq<RequestAck>) {
    forall m :: m in q && m !in faulty && m != owner ==> m in g && HashBatch(batch) in g[m].prepared
  }

  lemma Prepares(c: NetworkConfig, faulty: set<NodeId>, owner: NodeId, q: set<NodeId>, g: Network, i: NodeId,
                 batch: seq<RequestAck>) returns (g': Network)
    requires Inv(c, faulty, owner, g) && FaultBound(c, faulty) && owner in NodeSet(c) && IsQuorum(c, q) && i in q && i in g
    requires VotedFor(g[i], owner, batch) && AllSent(faulty, owner, g, q, batch)
    ensures Reaches(c, faulty, owner, q, g, g') && Inv(c, faulty, owner, g')
    ensures g'.Keys == g.Keys && g' == g[i := g'[i]] && PreparedBy(g'[i], owner, batch, q)
    ensures AllSent(faulty, owner, g', q, batch)
  {
    hide Inv;
    hide Reaches;
    hide NodeSet;
    hide HashBatch;
    hide VotedFor;
    hide Heard;
    InvOwner(c, faulty, owner, g, i);
    VotedHasHeard(g[i], owner, batch);
    g' := Gathers(c, faulty, owner, q, g, i, batch, {}, q - {owner});
    SubsetSize(q, q - {owner} + {owner});
    HeardIsPrepared(c, faulty, owner, g', i, batch, q - {owner});
    StillSent(c, faulty, owner, g, g', i, q, batch);
  }

  lemma StillSent(c: NetworkConfig, faulty: set<NodeId>, owner: NodeId, g: Network, g': Network, i: NodeId, q: set<NodeId>,
                  batch: seq<RequestAck>)
    requires AllSent(faulty, owner, g, q, batch) && i in g && g'.Keys == g.Keys && g' == g[i := g'[i]]
    requires Inv(c, faulty, owner, g') && Heard(g'[i], owner, batch, q - {owner})
    ensures AllSent(faulty, owner, g', q, batch)
  {
    hide Inv;
    NodeInv(c, faulty, owner, g', i);
  }

  lemma {:induction false} AllPrepare(c: NetworkConfig, faulty: set<NodeId>, owner: NodeId, q: set<NodeId>, g: Network,
                                      p: set<NodeId>, batch: seq<RequestAck>) returns (g': Network)
    requires Inv(c, faulty, owner, g) && FaultBound(c, faulty) && owner in NodeSet(c) && IsQuorum(c, q) && p <= q
    requires AllSent(faulty, owner, g, q, batch)
    requires forall i :: i in p && i !in faulty ==> i in g && VotedFor(g[i], owner, batch)
    ensures Reaches(c, faulty, owner, q, g, g') && Inv(c, faulty, owner, g') && g'.Keys == g.Keys
    ensures forall i :: i in p && i !in faulty ==> i in g' && PreparedBy(g'[i], owner, batch, q)
    ensures forall i :: i in g && i !in p ==> g'[i] == g[i]
    decreases |p|
  {
    hide Inv;
    hide Reaches;
    hide NodeSet;
    hide VotedFor;
    hide PreparedBy;
    hide AllSent;
    hide IsQuorum;
    if p == {} {
      g' := g;
      Stays(c, faulty, owner, q, g);
    } else {
      var i :| i in p;
      var rest := p - {i};
      if i in faulty {
        g' := AllPrepare(c, faulty, owner, q, g, rest, batch);
      } else {
        var g1 := Prepares(c, faulty, owner, q, g, i, batch);
        g' := AllPrepare(c, faulty, owner, q, g1, rest, batch);
        Follows(c, faulty, owner, q, g, g1, g');
      }
    }
  }

  // ---------------------------------------------------------------- committing

  /** The replica is prepared and has counted the commits of `from`. */
  ghost predicate Counting(r: Replica, owner: NodeId, batch: seq<RequestAck>, q: set<NodeId>, from: set<NodeId>) {
    var s, d := r.seq_, HashBatch(batch);
    && s.batch == batch && s.digest == d && Hashed(r) && Rank(s.phase) >= Rank(Prepared) && d in r.committed
    && s.choices.Keys == q + {owner} && Committers(r, d) == from
    && (forall m :: m in s.choices ==> s.choices[m] == Choice(if m in from then SaidCommit else SaidPrepare, Some(d)))
    && (s.me == owner ==> r.echoed)
  }

  lemma Counts(r: Replica, owner: NodeId, batch: seq<RequestAck>, q: set<NodeId>, from: set<NodeId>, m: NodeId)
    requires Counting(r, owner, batch, q, from) && r.seq_.owner == owner && m in q && m !in from
    ensures Enabled(r, GotCommit(m, HashBatch(batch)))
    ensures Counting(Handle(r, GotCommit(m, HashBatch(batch))), owner, batch, q, from + {m})
  {
    hide Advance;
  }

  /** The owner sees its own preprepare come back before its commit. */
  lemma OwnEchoed(r: Replica, batch: seq<RequestAck>, q: set<NodeId>)
    requires PreparedBy(r, r.seq_.owner, batch, q) && r.seq_.me == r.seq_.owner && Saturated(r.seq_)
    ensures Enabled(r, GotOwnPreprepare) && Counting(Handle(r, GotOwnPreprepare), r.seq_.owner, batch, q, {})
  {
    hide Advance;
    hide HashBatch;
  }

  lemma OtherReady(r: Replica, owner: NodeId, batch: seq<RequestAck>, q: set<NodeId>)
    requires PreparedBy(r, owner, batch, q) && r.seq_.me != owner
    ensures Counting(r, owner, batch, q, {})
  {
  }

  /** The correct members of `w` have sent their commits. */
  ghost predicate AllSaid(faulty: set<NodeId>, g: Network, w: set<NodeId>, batch: seq<RequestAck>) {
    forall m :: m in w && m !in faulty ==> m in g && HashBatch(batch) in g[m].committed
  }

  lemma CountsOne(c: NetworkConfig, faulty: set<NodeId>, owner: NodeId, q: set<NodeId>, g: Network, i: NodeId,
                  batch: seq<RequestAck>, from: set<NodeId>, m: NodeId) returns (g': Network)
    requires Inv(c, faulty, owner, g) && owner in NodeSet(c) && i in q && i in g && m in NodeSet(c) && m in q && m !in from
    requires Counting(g[i], owner, batch, q, from)
    requires m !in faulty ==> m in g && HashBatch(batch) in g[m].committed
    ensures Reaches(c, faulty, owner, q, g, g') && Inv(c, faulty, owner, g')
    ensures g'.Keys == g.Keys && g' == g[i := g'[i]] && Counting(g'[i], owner, batch, q, from + {m})
    ensures g[i].committed <= g'[i].committed
  {
    hide Inv;
    hide Reaches;
    hide NodeSet;
    hide HashBatch;
    hide Counting;
    hide Outcome;
    var event := GotCommit(m, HashBatch(batch));
    InvOwner(c, faulty, owner, g, i);
    Counts(g[i], owner, batch, q, from, m);
    Steps(c, faulty, owner, q, g, i, event);
    g' := g[i := Handle(g[i], event)];
  }

  lemma {:induction false} CountsAll(c: NetworkConfig, faulty: set<NodeId>, owner: NodeId, q: set<NodeId>, g: Network,
                                     i: NodeId, batch: seq<RequestAck>, from: set<NodeId>, w: set<NodeId>)
    returns (g': Network)
    requires Inv(c, faulty, owner, g) && owner in NodeSet(c) && i in q && i in g && from <= w <= q <= NodeSet(c)
    requires Counting(g[i], owner, batch, q, from) && AllSaid(faulty, g, w, batch)
    ensures Reaches(c, faulty, owner, q, g, g') && Inv(c, faulty, owner, g')
    ensures g'.Keys == g.Keys && g' == g[i := g'[i]] && Counting(g'[i], owner, batch, q, w)
    ensures g[i].committed <= g'[i].committed
    decreases |w - from|
  {
    hide Inv;
    hide Reaches;
    hide NodeSet;
    hide HashBatch;
    hide Counting;
    if from == w {
      g' := g;
      Stays(c, faulty, owner, q, g);
    } else {
      var m :| m in w && m !in from;
      assert w - (from + {m}) == w - from - {m};
      var g1 := CountsOne(c, faulty, owner, q, g, i, batch, from, m);
      g' := CountsAll(c, faulty, owner, q, g1, i, batch, from + {m}, w);
      Follows(c, faulty, owner, q, g, g1, g');
    }
  }

  lemma CountedIsCommitted(c: NetworkConfig, faulty: set<NodeId>, owner: NodeId, g: Network, i: NodeId,
                           batch: seq<RequestAck>, q: set<NodeId>, w: set<NodeId>)
    requires Inv(c, faulty, owner, g) && i in g && Counting(g[i], owner, batch, q, w) && i in w && w <= q
    requires |w| >= IntersectionQuorum(c)
    ensures g[i].seq_.phase == Committed && g[i].seq_.digest == HashBatch(batch)
  {
    hide Inv;
    hide IntersectionQuorum;
    hide HashBatch;
    NodeInv(c, faulty, owner, g, i);
    hide Tallied;
    var s, d := g[i].seq_, HashBatch(batch);
    assert CommitsExact(g[i], d);
    assert Pass(s) == (s, []);
    assert i in s.choices;
  }

  /** A prepared replica gets ready to count commits. */
  lemma Readies(c: NetworkConfig, faulty: set<NodeId>, owner: NodeId, q: set<NodeId>, g: Network, i: NodeId,
                batch: seq<RequestAck>) returns (g': Network)
    requires Inv(c, faulty, owner, g) && owner in NodeSet(c) && i in q && i in g && PreparedBy(g[i], owner, batch, q)
    ensures Reaches(c, faulty, owner, q, g, g') && Inv(c, faulty, owner, g')
    ensures g'.Keys == g.Keys && g' == g[i := g'[i]] && Counting(g'[i], owner, batch, q, {})
    ensures g[i].committed <= g'[i].committed
  {
    hide Inv;
    hide Reaches;
    hide NodeSet;
    hide PreparedBy;
    hide Counting;
    hide Outcome;
    NodeInv(c, faulty, owner, g, i);
    hide ReplicaInv;
    hide CommitInv;
    IsMe(c, faulty, owner, g, i);
    if i == owner {
      OwnEchoed(g[i], batch, q);
      Steps(c, faulty, owner, q, g, i, GotOwnPreprepare);
      g' := g[i := Handle(g[i], GotOwnPreprepare)];
    } else {
      g' := g;
      Stays(c, faulty, owner, q, g);
      OtherReady(g[i], owner, batch, q);
    }
  }

  lemma IsMe(c: NetworkConfig, faulty: set<NodeId>, owner: NodeId, g: Network, i: NodeId)
    requires Inv(c, faulty, owner, g) && i in g
    ensures g[i].seq_.me == i && g[i].seq_.owner == owner
  {
    hide Inv;
    NodeInv(c, faulty, owner, g, i);
  }

  lemma Commits(c: NetworkConfig, faulty: set<NodeId>, owner: NodeId, q: set<NodeId>, g: Network, i: NodeId,
                batch: seq<RequestAck>, w: set<NodeId>) returns (g': Network)
    requires Inv(c, faulty, owner, g) && owner in NodeSet(c) && IsQuorum(c, w) && w <= q <= NodeSet(c) && i in w && i in g
    requires PreparedBy(g[i], owner, batch, q) && AllSaid(faulty, g, w, batch)
    ensures Reaches(c, faulty, owner, q, g, g') && Inv(c, faulty, owner, g') && AllSaid(faulty, g', w, batch)
    ensures g'.Keys == g.Keys && g' == g[i := g'[i]]
    ensures g'[i].seq_.phase == Committed && g'[i].seq_.digest == HashBatch(batch) && g'[i].seq_.batch == batch
  {
    hide Inv;
    hide Reaches;
    hide NodeSet;
    hide HashBatch;
    hide PreparedBy;
    hide IntersectionQuorum;
    var g1 := Readies(c, faulty, owner, q, g, i, batch);
    assert AllSaid(faulty, g1, w, batch);
    g' := CountsAll(c, faulty, owner, q, g1, i, batch, {}, w);
    CountedIsCommitted(c, faulty, owner, g', i, batch, q, w);
    Follows(c, faulty, owner, q, g, g1, g');
  }

  ghost predicate CommittedFor(r: Replica, batch: seq<RequestAck>) {
    r.seq_.phase == Committed && r.seq_.digest == HashBatch(batch) && r.seq_.batch == batch
  }

  lemma {:induction false} AllCommit(c: NetworkConfig, faulty: set<NodeId>, owner: NodeId, q: set<NodeId>, g: Network,
                                     p: set<NodeId>, batch: seq<RequestAck>, w: set<NodeId>) returns (g': Network)
    requires Inv(c, faulty, owner, g) && owner in NodeSet(c) && IsQuorum(c, w) && p <= w <= q <= NodeSet(c)
    requires AllSaid(faulty, g, w, batch)
    requires forall i :: i in p && i !in faulty ==> i in g && PreparedBy(g[i], owner, batch, q)
    ensures Reaches(c, faulty, owner, q, g, g') && Inv(c, faulty, owner, g') && g'.Keys == g.Keys
    ensures forall i :: i in p && i !in faulty ==> i in g' && CommittedFor(g'[i], batch)
    ensures forall i :: i in g && i !in p ==> g'[i] == g[i]
    decreases |p|
  {
    hide Inv;
    hide Reaches;
    hide NodeSet;
    hide PreparedBy;
    hide AllSaid;
    hide IsQuorum;
    if p == {} {
      g' := g;
      Stays(c, faulty, owner, q, g);
    } else {
      var i :| i in p;
      var rest := p - {i};
      if i in faulty {
        g' := AllCommit(c, faulty, owner, q, g, rest, batch, w);
      } else {
        var g1 := Commits(c, faulty, owner, q, g, i, batch, w);
        g' := AllCommit(c, faulty, owner, q, g1, rest, batch, w);
        Follows(c, faulty, owner, q, g, g1, g');
      }
    }
  }

  // ---------------------------------------------------------------- a quorum

  lemma FreshNetwork(c: NetworkConfig, faulty: set<NodeId>, owner: NodeId, g: Network)
    requires g.Keys == NodeSet(c) - faulty && forall i :: i in g ==> g[i] == Fresh(c, owner, i)
    ensures Inv(c, faulty, owner, g)
  {
    FreshInv(c, faulty, owner, g);
  }

  lemma VotersSent(c: NetworkConfig, faulty: set<NodeId>, owner: NodeId, g: Network, q: set<NodeId>, batch: seq<RequestAck>)
    requires Inv(c, faulty, owner, g) && Voting(c, faulty, owner, g, q, q, batch)
    ensures AllSent(faulty, owner, g, q, batch)
  {
    hide Inv;
    forall m | m in q && m !in faulty && m != owner ensures m in g && HashBatch(batch) in g[m].prepared {
      IsMe(c, faulty, owner, g, m);
    }
  }

  /** A quorum with the owner, or under a faulty owner, can prepare any batch: from a fresh sequence its
      correct members vote for it, and those in `p` go on to be prepared. */
  lemma QuorumPrepares(c: NetworkConfig, faulty: set<NodeId>, owner: NodeId, q: set<NodeId>, g: Network, p: set<NodeId>,
                       batch: seq<RequestAck>) returns (g': Network)
    requires FaultBound(c, faulty) && g.Keys == NodeSet(c) - faulty && forall i :: i in g ==> g[i] == Fresh(c, owner, i)
    requires owner in NodeSet(c) && (owner in q || owner in faulty) && batch != [] && IsQuorum(c, q) && p <= q
    ensures Reaches(c, faulty, owner, q, g, g') && Inv(c, faulty, owner, g') && g'.Keys == g.Keys
    ensures forall i :: i in p && i !in faulty ==> i in g' && PreparedBy(g'[i], owner, batch, q)
    ensures forall i :: i in q && i !in faulty && i !in p ==> i in g' && VotedFor(g'[i], owner, batch)
    ensures forall i :: i in g && i !in q ==> g'[i] == g[i]
  {
    hide Inv;
    hide Reaches;
    hide VotedFor;
    hide PreparedBy;
    hide Fresh;
    FreshNetwork(c, faulty, owner, g);
    var g1 := AllVote(c, faulty, owner, q, g, batch);
    VotersSent(c, faulty, owner, g1, q, batch);
    g' := AllPrepare(c, faulty, owner, q, g1, p, batch);
    Follows(c, faulty, owner, q, g, g1, g');
  }

  /** And it can commit it. */
  lemma QuorumCommits(c: NetworkConfig, faulty: set<NodeId>, owner: NodeId, q: set<NodeId>, g: Network,
                      batch: seq<RequestAck>) returns (g': Network)
    requires FaultBound(c, faulty) && g.Keys == NodeSet(c) - faulty && forall i :: i in g ==> g[i] == Fresh(c, owner, i)
    requires owner in NodeSet(c) && (owner in q || owner in faulty) && batch != [] && IsQuorum(c, q)
    ensures Reaches(c, faulty, owner, q, g, g') && Inv(c, faulty, owner, g') && g'.Keys == g.Keys
    ensures forall i :: i in q && i !in faulty ==> i in g' && CommittedFor(g'[i], batch)
    ensures forall i :: i in g && i !in q ==> g'[i] == g[i]
  {
    hide Inv;
    hide Reaches;
    hide Fresh;
    hide Heard;
    hide CommittedFor;
    hide IntersectionQuorum;
    var g1 := QuorumPrepares(c, faulty, owner, q, g, q, batch);
    assert AllSaid(faulty, g1, q, batch);
    g' := AllCommit(c, faulty, owner, q, g1, q, batch, q);
    Follows(c, faulty, owner, q, g, g1, g');
  }
}
