/** Agreement on one sequence number within one epoch, over all runs of the correct replicas. */
module ThreePhase {
  import opened Types
  import opened Quorums
  import opened Sequences

  /** A correct replica's sequence with the work in flight for it and the messages it has sent. */
  datatype Replica = Replica(
    seq_: SeqState,
    hashing: Option<seq<RequestAck>>,            // the batch that the hasher is working on
    echoed: bool,                                // at the owner: its own preprepare has come back
    proposed: Option<seq<RequestAck>>,           // preprepare sent
    prepared: set<Digest>,                       // prepares sent
    committed: set<Digest>,                      // commits sent
    heard: map<Digest, set<NodeId>>,             // who was counted as committing what
    early: Option<Digest>,                       // what the owner was counted as committing before the batch was hashed
    late: Option<Digest>)                        // and what after

  type Network = map<NodeId, Replica>

  datatype Event =
    | Propose(batch: seq<RequestAck>)
    | GotPreprepare(batch: seq<RequestAck>, outstanding: set<nat>)
    | GotOwnPreprepare
    | HashDone
    | GotRequest(request: nat)
    | GotPrepare(source: NodeId, digest: Digest)
    | GotCommit(source: NodeId, digest: Digest)

  function Fresh(c: NetworkConfig, owner: NodeId, me: NodeId): Replica {
    Replica(NewSequence(owner, me, IntersectionQuorum(c)), None, false, None, {}, {}, map[], None, None)
  }

  function BatchHash(batch: seq<RequestAck>): Digest {
    if batch == [] then NullDigest else HashBatch(batch)
  }

  /** What may happen to a replica.  Preprepares reach a sequence once, in order of sequence number, so
      only while it is uninitialized; a replica's own messages come back after they were sent, in order. */
  predicate Enabled(r: Replica, event: Event) {
    var s := r.seq_;
    match event
    case Propose(_) => s.owner == s.me && s.phase == Uninitialized
    case GotPreprepare(_, _) => s.owner != s.me && s.phase == Uninitialized
    case GotOwnPreprepare => s.owner == s.me && r.proposed.Some? && !r.echoed
    case HashDone => r.hashing.Some?
    case GotRequest(request) => request in s.outstanding
    case GotPrepare(source, _) => source != s.owner
    case GotCommit(source, d) => source == s.me ==> d in r.committed && (s.owner == s.me ==> r.echoed)
  }

  function Outcome(r: Replica, event: Event): (SeqState, seq<Action>)
    requires Enabled(r, event)
  {
    match event
    case Propose(batch) => Allocate(r.seq_, batch, {})
    case GotPreprepare(batch, outstanding) => Allocate(r.seq_, batch, outstanding)
    case GotOwnPreprepare => ApplyPrepare(r.seq_, r.seq_.me, r.seq_.digest)
    case HashDone => ApplyHash(r.seq_, HashBatch(r.hashing.value))
    case GotRequest(request) => Satisfy(r.seq_, request)
    case GotPrepare(source, d) => ApplyPrepare(r.seq_, source, d)
    case GotCommit(source, d) => ApplyCommit(r.seq_, source, d)
  }

  function PreparesIn(out: seq<Action>): set<Digest> {
    set i | 0 <= i < |out| && out[i].SendPrepare? :: out[i].digest
  }

  function CommitsIn(out: seq<Action>): set<Digest> {
    set i | 0 <= i < |out| && out[i].SendCommit? :: out[i].digest
  }

  predicate Proposes(out: seq<Action>) {
    exists i :: 0 <= i < |out| && out[i].SendPreprepare?
  }

  predicate Hashed(r: Replica) {
    r.seq_.phase != Uninitialized && r.hashing.None?
  }

  predicate Counted(r: Replica, event: Event) {
    event.GotCommit? && ChoiceOf(r.seq_, event.source).said != SaidCommit
  }

  function Committers(r: Replica, d: Digest): set<NodeId> {
    if d in r.heard then r.heard[d] else {}
  }

  predicate Allocates(event: Event) {
    (event.Propose? || event.GotPreprepare?) && event.batch != []
  }

  /** Only an allocated batch goes to the hasher, and only because the sequence asked for it. */
  lemma OutcomeAsks(r: Replica, event: Event)
    requires Enabled(r, event)
    ensures Asked(Outcome(r, event).1) == if Allocates(event) then Some(event.batch) else None
  {
    hide Advance;
    var out := Outcome(r, event).1;
    match event {
      case Propose(batch) => OperationsHash(r.seq_, 0, NullDigest, batch, {}, 0);
      case GotPreprepare(batch, outstanding) => OperationsHash(r.seq_, 0, NullDigest, batch, outstanding, 0);
      case GotOwnPreprepare => OperationsHash(r.seq_, r.seq_.me, r.seq_.digest, [], {}, 0);
      case HashDone => OperationsHash(r.seq_, 0, HashBatch(r.hashing.value), [], {}, 0);
      case GotRequest(request) => OperationsHash(r.seq_, 0, NullDigest, [], {}, request);
      case GotPrepare(source, d) => OperationsHash(r.seq_, source, d, [], {}, 0);
      case GotCommit(source, d) => OperationsHash(r.seq_, source, d, [], {}, 0);
    }
    if !Allocates(event) {
      NothingAsked(out);
    }
  }

  function Handle(r: Replica, event: Event): (r': Replica)
    requires Enabled(r, event)
    ensures r'.hashing == if event.HashDone? then None else if Allocates(event) then Some(event.batch) else r.hashing
  {
    var (s, out) := Outcome(r, event);
    OutcomeAsks(r, event);
    Replica(s,
            if Asked(out).Some? then Asked(out) else if event.HashDone? then None else r.hashing,
            r.echoed || event.GotOwnPreprepare?,
            if Proposes(out) then Some(s.batch) else r.proposed,
            r.prepared + PreparesIn(out),
            r.committed + CommitsIn(out),
            if Counted(r, event) then r.heard[event.digest := Committers(r, event.digest) + {event.source}] else r.heard,
            if Counted(r, event) && event.source == r.seq_.owner && !Hashed(r) then Some(event.digest) else r.early,
            if Counted(r, event) && event.source == r.seq_.owner && Hashed(r) then Some(event.digest) else r.late)
  }

  /** Messages from correct nodes were sent by them; faulty ones, also a faulty owner, may send anything. */
  ghost predicate Deliverable(faulty: set<NodeId>, g: Network, owner: NodeId, event: Event) {
    match event
    case GotPreprepare(batch, _) => owner !in faulty ==> owner in g && g[owner].proposed == Some(batch)
    case GotPrepare(source, d) => source !in faulty ==> source in g && d in g[source].prepared
    case GotCommit(source, d) => source !in faulty ==> source in g && d in g[source].committed
    case _ => true
  }

  ghost predicate Next(c: NetworkConfig, faulty: set<NodeId>, owner: NodeId, g: Network, g': Network, i: NodeId,
                       event: Event)
  {
    && i in g && Enabled(g[i], event) && Deliverable(faulty, g, owner, event)
    && (event.GotPrepare? || event.GotCommit? ==> event.source in NodeSet(c))
    && g' == g[i := Handle(g[i], event)]
  }

  ghost predicate NextAny(c: NetworkConfig, faulty: set<NodeId>, owner: NodeId, g: Network, g': Network) {
    exists i, event :: Next(c, faulty, owner, g, g', i, event)
  }

  ghost predicate IsRun(c: NetworkConfig, faulty: set<NodeId>, owner: NodeId, run: seq<Network>) {
    && FaultBound(c, faulty) && owner in NodeSet(c) && run != []
    && run[0].Keys == NodeSet(c) - faulty
    && (forall i :: i in run[0] ==> run[0][i] == Fresh(c, owner, i))
    && forall t :: 0 < t < |run| ==> NextAny(c, faulty, owner, run[t - 1], run[t])
  }

  // ---------------------------------------------------------------- one replica

  function Voters(choices: map<NodeId, Choice>, d: Digest): set<NodeId> {
    set n | n in choices && choices[n].digest == Some(d)
  }

  /** The prepare tally counts distinct voters, except that the owner counts itself once more when its
      own preprepare comes back. */
  predicate TalliedFor(r: Replica, d: Digest) {
    Count(r.seq_.prepares, d) == |Voters(r.seq_.choices, d)| + if r.echoed && d == r.seq_.digest then 1 else 0
  }

  ghost predicate Tallied(r: Replica) {
    forall d :: TalliedFor(r, d)
  }

  ghost predicate ReplicaInv(c: NetworkConfig, owner: NodeId, me: NodeId, r: Replica) {
    var s := r.seq_;
    && s.owner == owner && s.me == me && s.quorum == IntersectionQuorum(c)
    && s.phase != Allocated
    && (s.phase == Uninitialized ==> r.hashing.None? && s.digest == NullDigest)
    && (r.hashing.Some? ==> s.batch == r.hashing.value != [] && s.digest == NullDigest)
    && (Hashed(r) ==> s.digest == BatchHash(s.batch))
    && (Rank(s.phase) >= Rank(Preprepared) ==> Hashed(r))
    && ChoiceOf(s, owner).digest == (if Hashed(r) then Some(s.digest) else None)
    && (r.echoed ==> me == owner && Hashed(r))
    && (r.proposed.Some? ==> me == owner && r.proposed.value == s.batch && Rank(s.phase) >= Rank(Preprepared))
    && (forall d :: d in r.prepared ==> d == s.digest && Rank(s.phase) >= Rank(Preprepared))
    && (forall d :: d in r.committed ==> d == s.digest && Rank(s.phase) >= Rank(Prepared))
    && (Rank(s.phase) >= Rank(Prepared) ==> Count(s.prepares, s.digest) >= s.quorum)
    && (s.phase == Committed ==> Count(s.commits, s.digest) >= s.quorum)
    && (forall n :: n in s.choices && n != owner && s.choices[n].digest.Some? ==> s.choices[n].said != Nothing)
    && Tallied(r)
  }

  /** What advancing does to the phase and which messages it may send. */
  ghost predicate AdvanceEffects(s: SeqState, s': SeqState, out: seq<Action>) {
    && s' == s.(phase := s'.phase) && Rank(s'.phase) >= Rank(s.phase)
    && (s'.phase == Allocated ==> s.phase == Allocated) && (s'.phase == Uninitialized <==> s.phase == Uninitialized)
    && (forall d :: d in PreparesIn(out) ==> d == s.digest && Rank(s'.phase) >= Rank(Preprepared))
    && (forall d :: d in CommitsIn(out) ==> d == s.digest && Rank(s'.phase) >= Rank(Prepared))
    && (Proposes(out) ==> s.owner == s.me && Rank(s'.phase) >= Rank(Preprepared))
    && (Rank(s'.phase) >= Rank(Preprepared) > Rank(s.phase) ==> s.digest != NullDigest || s.batch == [])
    && (Rank(s'.phase) >= Rank(Prepared) > Rank(s.phase) ==> Count(s.prepares, s.digest) >= s.quorum)
    && (s'.phase == Committed != s.phase ==> Count(s.commits, s.digest) >= s.quorum)
  }

  lemma SentInConcat(a: seq<Action>, b: seq<Action>)
    ensures PreparesIn(a + b) == PreparesIn(a) + PreparesIn(b)
    ensures CommitsIn(a + b) == CommitsIn(a) + CommitsIn(b)
    ensures Proposes(a + b) <==> Proposes(a) || Proposes(b)
  {
    var o := a + b;
    assert forall i :: 0 <= i < |a| ==> o[i] == a[i];
    assert forall i :: 0 <= i < |b| ==> o[|a| + i] == b[i];
    forall d | d in PreparesIn(o) ensures d in PreparesIn(a) + PreparesIn(b) {
      var i :| 0 <= i < |o| && o[i].SendPrepare? && o[i].digest == d;
      assert i >= |a| ==> b[i - |a|] == o[i];
    }
    forall d | d in CommitsIn(o) ensures d in CommitsIn(a) + CommitsIn(b) {
      var i :| 0 <= i < |o| && o[i].SendCommit? && o[i].digest == d;
      assert i >= |a| ==> b[i - |a|] == o[i];
    }
    if Proposes(o) {
      var i :| 0 <= i < |o| && o[i].SendPreprepare?;
      assert i >= |a| ==> b[i - |a|] == o[i];
    }
  }

  lemma PassHasEffects(s: SeqState)
    ensures AdvanceEffects(s, Pass(s).0, Pass(s).1)
  {
  }

  lemma EffectsCompose(s: SeqState, s1: SeqState, out: seq<Action>, s2: SeqState, more: seq<Action>)
    requires AdvanceEffects(s, s1, out) && AdvanceEffects(s1, s2, more)
    ensures AdvanceEffects(s, s2, out + more)
  {
    hide PreparesIn;
    hide CommitsIn;
    hide Proposes;
    SentInConcat(out, more);
  }

  lemma {:induction false} AdvanceHasEffects(s: SeqState)
    ensures AdvanceEffects(s, Advance(s).0, Advance(s).1)
    decreases 6 - Rank(s.phase)
  {
    var (next, out) := Pass(s);
    PassHasEffects(s);
    if next.phase != s.phase {
      PassThenAdvance(s);
      AdvanceHasEffects(next);
      EffectsCompose(s, next, out, Advance(next).0, Advance(next).1);
    } else {
      assert Advance(s) == Pass(s);
    }
  }

  function Sent(r: Replica, s': SeqState, out: seq<Action>): Replica {
    r.(seq_ := s', proposed := if Proposes(out) then Some(s'.batch) else r.proposed,
       prepared := r.prepared + PreparesIn(out), committed := r.committed + CommitsIn(out))
  }

  lemma AdvanceKeepsInv(c: NetworkConfig, owner: NodeId, me: NodeId, r: Replica)
    requires ReplicaInv(c, owner, me, r)
    ensures ReplicaInv(c, owner, me, Sent(r, Advance(r.seq_).0, Advance(r.seq_).1))
  {
    hide Advance;
    hide Tallied;
    hide PreparesIn;
    hide CommitsIn;
    hide Proposes;
    AdvanceHasEffects(r.seq_);
    var (s', out) := Advance(r.seq_);
    SameVotesTallied(r, Sent(r, s', out), false);
  }

  /** Recording a first vote adds one voter for its digest and none for another. */
  lemma VoteCounted(choices: map<NodeId, Choice>, n: NodeId, said: Said, d: Digest, x: Digest)
    requires n in choices ==> choices[n].digest.None?
    ensures |Voters(choices[n := Choice(said, Some(d))], x)| == |Voters(choices, x)| + if x == d then 1 else 0
  {
    var voters, voters' := Voters(choices, x), Voters(choices[n := Choice(said, Some(d))], x);
    assert n !in voters;
    if x == d {
      assert voters' == voters + {n};
    } else {
      assert voters' == voters;
    }
  }

  lemma SameVoters(s: SeqState, s': SeqState, x: Digest)
    requires forall n :: ChoiceOf(s, n).digest == ChoiceOf(s', n).digest
    ensures Voters(s.choices, x) == Voters(s'.choices, x)
  {
    forall n ensures n in Voters(s.choices, x) <==> n in Voters(s'.choices, x) {
      assert ChoiceOf(s, n).digest == ChoiceOf(s', n).digest;
    }
  }

  /** The tally after a first vote. */
  lemma FirstVoteTallied(r: Replica, r': Replica, n: NodeId, said: Said, d: Digest)
    requires Tallied(r) && ChoiceOf(r.seq_, n).digest.None?
    requires r'.seq_.choices == r.seq_.choices[n := Choice(said, Some(d))]
    requires r'.seq_.prepares == r.seq_.prepares[d := Count(r.seq_.prepares, d) + 1]
    requires r'.echoed == r.echoed && (r.echoed ==> r'.seq_.digest == r.seq_.digest)
    ensures Tallied(r')
  {
    forall x ensures TalliedFor(r', x) {
      assert TalliedFor(r, x);
      VoteCounted(r.seq_.choices, n, said, d, x);
    }
  }

  /** The tally when nobody's vote changed; `extra` is the owner counting itself again. */
  lemma SameVotesTallied(r: Replica, r': Replica, extra: bool)
    requires Tallied(r) && forall n :: ChoiceOf(r.seq_, n).digest == ChoiceOf(r'.seq_, n).digest
    requires extra ==> !r.echoed
    requires var d := r'.seq_.digest;
             r'.seq_.prepares == if extra then r.seq_.prepares[d := Count(r.seq_.prepares, d) + 1] else r.seq_.prepares
    requires r'.echoed == (r.echoed || extra) && (r.echoed ==> r'.seq_.digest == r.seq_.digest)
    ensures Tallied(r')
  {
    forall x ensures TalliedFor(r', x) {
      assert TalliedFor(r, x);
      SameVoters(r.seq_, r'.seq_, x);
    }
  }

  lemma PrepareCounted(c: NetworkConfig, owner: NodeId, me: NodeId, r: Replica, r1: Replica, source: NodeId, d: Digest)
    requires ReplicaInv(c, owner, me, r) && source != owner && ChoiceOf(r.seq_, source).said == Nothing
    requires r1 == r.(seq_ := r.seq_.(choices := r.seq_.choices[source := Choice(SaidPrepare, Some(d))],
                                      prepares := r.seq_.prepares[d := Count(r.seq_.prepares, d) + 1]))
    ensures ReplicaInv(c, owner, me, r1)
  {
    hide Tallied;
    FirstVoteTallied(r, r1, source, SaidPrepare, d);
  }

  lemma PrepareKeepsInv(c: NetworkConfig, owner: NodeId, me: NodeId, r: Replica, source: NodeId, d: Digest)
    requires ReplicaInv(c, owner, me, r) && source != owner
    ensures ReplicaInv(c, owner, me, Sent(r, ApplyPrepare(r.seq_, source, d).0, ApplyPrepare(r.seq_, source, d).1))
  {
    hide ReplicaInv;
    hide Advance;
    hide PreparesIn;
    hide CommitsIn;
    hide Proposes;
    OwnerOf(c, owner, me, r);
    var s := r.seq_;
    if ChoiceOf(s, source).said == Nothing {
      var r1 := r.(seq_ := s.(choices := s.choices[source := Choice(SaidPrepare, Some(d))],
                              prepares := s.prepares[d := Count(s.prepares, d) + 1]));
      PrepareCounted(c, owner, me, r, r1, source, d);
      AdvanceKeepsInv(c, owner, me, r1);
    } else {
      NothingSent(r);
    }
  }

  lemma OwnerOf(c: NetworkConfig, owner: NodeId, me: NodeId, r: Replica)
    requires ReplicaInv(c, owner, me, r)
    ensures r.seq_.owner == owner && r.seq_.me == me
  {
    hide Tallied;
  }

  lemma NothingSent(r: Replica)
    ensures Sent(r, r.seq_, []) == r
  {
  }

  lemma CommitCounted(c: NetworkConfig, owner: NodeId, me: NodeId, r: Replica, r1: Replica, source: NodeId, d: Digest)
    requires ReplicaInv(c, owner, me, r)
    requires r1 == r.(seq_ := r.seq_.(
                       choices := r.seq_.choices[source := Choice(SaidCommit, ChoiceOf(r.seq_, source).digest)],
                       commits := r.seq_.commits[d := Count(r.seq_.commits, d) + 1]))
    ensures ReplicaInv(c, owner, me, r1)
  {
    hide Tallied;
    SameVotesTallied(r, r1, false);
  }

  lemma CommitKeepsInv(c: NetworkConfig, owner: NodeId, me: NodeId, r: Replica, source: NodeId, d: Digest)
    requires ReplicaInv(c, owner, me, r)
    ensures ReplicaInv(c, owner, me, Sent(r, ApplyCommit(r.seq_, source, d).0, ApplyCommit(r.seq_, source, d).1))
  {
    hide ReplicaInv;
    hide Advance;
    hide PreparesIn;
    hide CommitsIn;
    hide Proposes;
    var s := r.seq_;
    if ChoiceOf(s, source).said != SaidCommit {
      var r1 := r.(seq_ := s.(choices := s.choices[source := Choice(SaidCommit, ChoiceOf(s, source).digest)],
                              commits := s.commits[d := Count(s.commits, d) + 1]));
      CommitCounted(c, owner, me, r, r1, source, d);
      AdvanceKeepsInv(c, owner, me, r1);
    } else {
      NothingSent(r);
    }
  }

  lemma HashCounted(c: NetworkConfig, owner: NodeId, me: NodeId, r: Replica, r1: Replica)
    requires ReplicaInv(c, owner, me, r) && r.hashing.Some?
    requires var s, d := r.seq_, HashBatch(r.seq_.batch);
             r1 == r.(hashing := None,
                      seq_ := s.(digest := d, choices := s.choices[owner := Choice(SaidPrepare, Some(d))],
                                 prepares := s.prepares[d := Count(s.prepares, d) + 1]))
    ensures ReplicaInv(c, owner, me, r1)
  {
    FirstVoteTallied(r, r1, owner, SaidPrepare, HashBatch(r.seq_.batch));
    hide Tallied;
  }

  lemma HashKeepsInv(c: NetworkConfig, owner: NodeId, me: NodeId, r: Replica)
    requires ReplicaInv(c, owner, me, r) && r.hashing.Some?
    ensures
      var (s', out) := ApplyHash(r.seq_, HashBatch(r.seq_.batch));
      ReplicaInv(c, owner, me, Sent(r.(hashing := None), s', out))
  {
    hide ReplicaInv;
    hide Advance;
    hide PreparesIn;
    hide CommitsIn;
    hide Proposes;
    hide HashBatch;
    var s, d := r.seq_, HashBatch(r.seq_.batch);
    var r1 := r.(hashing := None,
                 seq_ := s.(digest := d, choices := s.choices[owner := Choice(SaidPrepare, Some(d))],
                            prepares := s.prepares[d := Count(s.prepares, d) + 1]));
    OwnerOf(c, owner, me, r);
    HashCounted(c, owner, me, r, r1);
    AdvanceKeepsInv(c, owner, me, r1);
  }

  lemma OwnPreprepareCounted(c: NetworkConfig, owner: NodeId, me: NodeId, r: Replica, r1: Replica)
    requires ReplicaInv(c, owner, me, r) && Enabled(r, GotOwnPreprepare)
    requires var s, d := r.seq_, r.seq_.digest;
             r1 == r.(echoed := true,
                      seq_ := s.(choices := s.choices[me := Choice(SaidPrepare, Some(d))],
                                 prepares := s.prepares[d := Count(s.prepares, d) + 1]))
    ensures ReplicaInv(c, owner, me, r1)
  {
    hide Tallied;
    SameVotesTallied(r, r1, true);
  }

  lemma OwnPreprepareKeepsInv(c: NetworkConfig, owner: NodeId, me: NodeId, r: Replica)
    requires ReplicaInv(c, owner, me, r) && Enabled(r, GotOwnPreprepare)
    ensures
      var (s', out) := ApplyPrepare(r.seq_, me, r.seq_.digest);
      ReplicaInv(c, owner, me, Sent(r.(echoed := true), s', out))
  {
    hide Advance;
    var s, d := r.seq_, r.seq_.digest;
    var r1 := r.(echoed := true,
                 seq_ := s.(choices := s.choices[me := Choice(SaidPrepare, Some(d))],
                            prepares := s.prepares[d := Count(s.prepares, d) + 1]));
    OwnPreprepareCounted(c, owner, me, r, r1);
    hide ReplicaInv;
    AdvanceKeepsInv(c, owner, me, r1);
  }

  lemma HashRequestSilent(r: Replica, s': SeqState, batch: seq<RequestAck>, more: seq<Action>)
    ensures Sent(r, s', [Hash(batch)] + more) == Sent(r, s', more)
  {
    SentInConcat([Hash(batch)], more);
    assert PreparesIn([Hash(batch)]) == {} == CommitsIn([Hash(batch)]);
  }

  lemma EmptyCounted(c: NetworkConfig, owner: NodeId, me: NodeId, r: Replica, r1: Replica, outstanding: set<nat>)
    requires ReplicaInv(c, owner, me, r) && r.seq_.phase == Uninitialized
    requires var s := r.seq_;
             r1 == r.(hashing := None,
                      seq_ := s.(batch := [], outstanding := outstanding, phase := AllReady, digest := NullDigest,
                                 choices := s.choices[owner := Choice(SaidPrepare, Some(NullDigest))],
                                 prepares := s.prepares[NullDigest := Count(s.prepares, NullDigest) + 1]))
    ensures ReplicaInv(c, owner, me, r1)
  {
    hide Tallied;
    FirstVoteTallied(r, r1, owner, SaidPrepare, NullDigest);
  }

  lemma AllocateEmptyKeepsInv(c: NetworkConfig, owner: NodeId, me: NodeId, r: Replica, outstanding: set<nat>)
    requires ReplicaInv(c, owner, me, r) && r.seq_.phase == Uninitialized
    ensures
      var (s', out) := Allocate(r.seq_, [], outstanding);
      ReplicaInv(c, owner, me, Sent(r.(hashing := None), s', out))
  {
    hide ReplicaInv;
    hide Advance;
    hide PreparesIn;
    hide CommitsIn;
    hide Proposes;
    OwnerOf(c, owner, me, r);
    var s := r.seq_;
    var r1 := r.(hashing := None,
                 seq_ := s.(batch := [], outstanding := outstanding, phase := AllReady, digest := NullDigest,
                            choices := s.choices[owner := Choice(SaidPrepare, Some(NullDigest))],
                            prepares := s.prepares[NullDigest := Count(s.prepares, NullDigest) + 1]));
    EmptyCounted(c, owner, me, r, r1, outstanding);
    AdvanceKeepsInv(c, owner, me, r1);
  }

  lemma AllocateKeepsInv(c: NetworkConfig, owner: NodeId, me: NodeId, r: Replica, batch: seq<RequestAck>,
                         outstanding: set<nat>)
    requires ReplicaInv(c, owner, me, r) && r.seq_.phase == Uninitialized
    ensures
      var (s', out) := Allocate(r.seq_, batch, outstanding);
      ReplicaInv(c, owner, me, Sent(r.(hashing := if batch == [] then None else Some(batch)), s', out))
  {
    if batch == [] {
      AllocateEmptyKeepsInv(c, owner, me, r, outstanding);
    } else {
      var r1 := r.(hashing := Some(batch),
                   seq_ := r.seq_.(batch := batch, outstanding := outstanding, phase := PendingRequests));
      SameVotesTallied(r, r1, false);
      hide Tallied;
      AdvanceKeepsInv(c, owner, me, r1);
      HashRequestSilent(r1, Advance(r1.seq_).0, batch, Advance(r1.seq_).1);
    }
  }

  lemma SatisfyKeepsInv(c: NetworkConfig, owner: NodeId, me: NodeId, r: Replica, request: nat)
    requires ReplicaInv(c, owner, me, r) && request in r.seq_.outstanding
    ensures ReplicaInv(c, owner, me, Sent(r, Satisfy(r.seq_, request).0, Satisfy(r.seq_, request).1))
  {
    hide Tallied;
    var r1 := r.(seq_ := r.seq_.(outstanding := r.seq_.outstanding - {request}));
    SameVotesTallied(r, r1, false);
    AdvanceKeepsInv(c, owner, me, r1);
  }

  /** A replica keeps its invariant at every event. */
  lemma HandleKeepsInv(c: NetworkConfig, owner: NodeId, me: NodeId, r: Replica, event: Event)
    requires ReplicaInv(c, owner, me, r) && Enabled(r, event)
    ensures ReplicaInv(c, owner, me, Handle(r, event))
  {
    hide Tallied;
    var r' := Handle(r, event);
    var plain := r'.(heard := r.heard, early := r.early, late := r.late);
    assert ReplicaInv(c, owner, me, plain) by {
      hide Allocate;
      hide ApplyPrepare;
      hide ApplyCommit;
      hide ApplyHash;
      hide Satisfy;
      hide Tallied;
      match event {
        case Propose(batch) => AllocateKeepsInv(c, owner, me, r, batch, {});
        case GotPreprepare(batch, outstanding) => AllocateKeepsInv(c, owner, me, r, batch, outstanding);
        case GotOwnPreprepare => OwnPreprepareKeepsInv(c, owner, me, r);
        case HashDone => HashKeepsInv(c, owner, me, r);
        case GotRequest(request) => SatisfyKeepsInv(c, owner, me, r, request);
        case GotPrepare(source, d) => PrepareKeepsInv(c, owner, me, r, source, d);
        case GotCommit(source, d) => CommitKeepsInv(c, owner, me, r, source, d);
      }
    }
    hide Handle;
    SameVotesTallied(plain, r', false);
  }

  // ---------------------------------------------------------------- the commit tally

  /** The owner has been counted twice for `d`, before and after the batch was hashed. */
  predicate Recounted(r: Replica, d: Digest) {
    r.early == Some(d) && r.late == Some(d)
  }

  /** The commit tally counts distinct committers exactly, but for an owner that is counted twice. */
  predicate CommitsExact(r: Replica, d: Digest) {
    Count(r.seq_.commits, d) == |Committers(r, d)| + if Recounted(r, d) then 1 else 0
  }

  ghost predicate CommittersSaid(r: Replica, d: Digest) {
    && (forall n :: n in Committers(r, d) && n != r.seq_.owner ==> ChoiceOf(r.seq_, n).said == SaidCommit)
    && (r.seq_.owner in Committers(r, d) <==> r.early == Some(d) || r.late == Some(d))
  }

  ghost predicate CommitInv(r: Replica) {
    && (forall d :: CommitsExact(r, d))
    && (forall d :: CommittersSaid(r, d))
    && (Hashed(r) ==> (r.late.Some? <==> ChoiceOf(r.seq_, r.seq_.owner).said == SaidCommit))
    && (!Hashed(r) ==> r.late.None? && (r.early.Some? <==> ChoiceOf(r.seq_, r.seq_.owner).said == SaidCommit))
    && (r.seq_.me == r.seq_.owner ==> r.early.None?)
    && (r.seq_.me == r.seq_.owner && !r.echoed ==> ChoiceOf(r.seq_, r.seq_.owner).said != SaidCommit)
  }

  /** `r'` is `r` after the commit of `n` for `d` was counted. */
  ghost predicate Counts(r: Replica, r': Replica, n: NodeId, d: Digest) {
    && ChoiceOf(r.seq_, n).said != SaidCommit
    && r'.seq_.commits == r.seq_.commits[d := Count(r.seq_.commits, d) + 1] && r'.seq_.owner == r.seq_.owner
    && r'.seq_.choices == r.seq_.choices[n := Choice(SaidCommit, ChoiceOf(r.seq_, n).digest)]
    && r'.heard == r.heard[d := Committers(r, d) + {n}]
    && r'.early == (if n == r.seq_.owner && !Hashed(r) then Some(d) else r.early)
    && r'.late == (if n == r.seq_.owner && Hashed(r) then Some(d) else r.late)
  }

  lemma CommitterCounted(r: Replica, r': Replica, n: NodeId, d: Digest, x: Digest)
    requires CommitInv(r) && Counts(r, r', n, d)
    ensures CommitsExact(r', x)
  {
    hide ChoiceOf;
    assert CommitsExact(r, x) && CommittersSaid(r, d);
    if x == d {
      assert Committers(r', d) == Committers(r, d) + {n};
      assert n in Committers(r, d) <==> n == r.seq_.owner && r.early == Some(d) && Hashed(r);
    } else {
      assert Committers(r', x) == Committers(r, x);
    }
  }

  lemma CommitterSaid(r: Replica, r': Replica, n: NodeId, d: Digest, x: Digest)
    requires CommitInv(r) && Counts(r, r', n, d)
    ensures CommittersSaid(r', x)
  {
    hide CommitsExact;
    assert CommittersSaid(r, x);
    assert Committers(r', x) == if x == d then Committers(r, d) + {n} else Committers(r, x);
    hide Committers;
    forall m | m in Committers(r', x) && m != r.seq_.owner ensures ChoiceOf(r'.seq_, m).said == SaidCommit {
      if m != n {
        assert m in Committers(r, x) && ChoiceOf(r'.seq_, m) == ChoiceOf(r.seq_, m);
      }
    }
  }

  /** A commit that is counted. */
  lemma CountedKeepsCommitInv(c: NetworkConfig, owner: NodeId, me: NodeId, r: Replica, event: Event)
    requires ReplicaInv(c, owner, me, r) && CommitInv(r) && Enabled(r, event) && Counted(r, event)
    ensures CommitInv(Handle(r, event))
  {
    hide Advance;
    hide Tallied;
    hide CommitsExact;
    hide CommittersSaid;
    var r', n, d := Handle(r, event), event.source, event.digest;
    var s1 := r.seq_.(choices := r.seq_.choices[n := Choice(SaidCommit, ChoiceOf(r.seq_, n).digest)],
                      commits := r.seq_.commits[d := Count(r.seq_.commits, d) + 1]);
    assert r'.seq_ == Advance(s1).0;
    assert r'.heard == r.heard[d := Committers(r, d) + {n}];
    assert r'.early == if n == owner && !Hashed(r) then Some(d) else r.early;
    assert r'.late == if n == owner && Hashed(r) then Some(d) else r.late;
    assert r'.echoed == r.echoed && r'.hashing == r.hashing;
    AdvanceHasEffects(s1);
    hide Handle;
    assert Hashed(r') == Hashed(r);
    forall x ensures CommitsExact(r', x) && CommittersSaid(r', x) {
      CommitterCounted(r, r', n, d, x);
      CommitterSaid(r, r', n, d, x);
    }
    assert n != owner ==> ChoiceOf(r'.seq_, owner) == ChoiceOf(r.seq_, owner);
  }

  predicate MayReset(r: Replica, n: NodeId) {
    if n == r.seq_.owner then !Hashed(r) || (r.seq_.me == n && !r.echoed) else ChoiceOf(r.seq_, n).said == Nothing
  }

  /** Any other event: nobody's commit is recorded and at most one node's choice becomes a prepare. */
  lemma OtherKeepsCommitInv(r: Replica, r': Replica, reset: Option<NodeId>)
    requires CommitInv(r)
    requires r'.heard == r.heard && r'.early == r.early && r'.late == r.late && r'.seq_.commits == r.seq_.commits
    requires r'.seq_.owner == r.seq_.owner && r'.seq_.me == r.seq_.me && (r.echoed ==> r'.echoed)
    requires Hashed(r) ==> Hashed(r')
    requires reset.None? ==> r'.seq_.choices == r.seq_.choices && Hashed(r) == Hashed(r')
    requires reset.Some? ==>
               MayReset(r, reset.value) && if reset.value == r.seq_.owner then Hashed(r') else Hashed(r) == Hashed(r')
    requires reset.Some? ==>
               forall n :: ChoiceOf(r'.seq_, n).said == if n == reset.value then SaidPrepare else ChoiceOf(r.seq_, n).said
    ensures CommitInv(r')
  {
    if reset.None? {
      assert forall n :: ChoiceOf(r'.seq_, n) == ChoiceOf(r.seq_, n);
    }
    forall d ensures CommitsExact(r', d) && CommittersSaid(r', d) {
      assert CommitsExact(r, d) && CommittersSaid(r, d) && Committers(r', d) == Committers(r, d);
    }
  }

  /** The same for an event that advances from `s1`, the state after its own updates. */
  lemma AdvancedKeepsCommitInv(r: Replica, r': Replica, s1: SeqState, reset: Option<NodeId>, d: Digest)
    requires CommitInv(r)
    requires r'.seq_ == Advance(s1).0 && r'.heard == r.heard && r'.early == r.early && r'.late == r.late
    requires r.echoed ==> r'.echoed
    requires s1.commits == r.seq_.commits && s1.owner == r.seq_.owner && s1.me == r.seq_.me
    requires s1.choices == if reset.None? then r.seq_.choices
                           else r.seq_.choices[reset.value := Choice(SaidPrepare, Some(d))]
    requires var hashed1 := s1.phase != Uninitialized && r'.hashing.None?;
             if reset == Some(r.seq_.owner) then hashed1 else hashed1 == Hashed(r)
    requires reset.Some? ==> MayReset(r, reset.value)
    ensures CommitInv(r')
  {
    hide Advance;
    AdvanceHasEffects(s1);
    OtherKeepsCommitInv(r, r', reset);
  }

  lemma HandleKeepsCommitInv(c: NetworkConfig, owner: NodeId, me: NodeId, r: Replica, event: Event)
    requires ReplicaInv(c, owner, me, r) && CommitInv(r) && Enabled(r, event)
    ensures CommitInv(Handle(r, event))
  {
    hide Tallied;
    hide CommitInv;
    hide Advance;
    var r', s := Handle(r, event), r.seq_;
    match event {
      case Propose(batch) => AllocateKeepsCommitInv(c, owner, me, r, r', batch, {});
      case GotPreprepare(batch, outstanding) => AllocateKeepsCommitInv(c, owner, me, r, r', batch, outstanding);
      case GotOwnPreprepare =>
        AdvancedKeepsCommitInv(r, r', s.(choices := s.choices[me := Choice(SaidPrepare, Some(s.digest))],
                                         prepares := s.prepares[s.digest := Count(s.prepares, s.digest) + 1]),
                               Some(me), s.digest);
      case HashDone =>
        var d := HashBatch(s.batch);
        AdvancedKeepsCommitInv(r, r', s.(digest := d, choices := s.choices[owner := Choice(SaidPrepare, Some(d))],
                                         prepares := s.prepares[d := Count(s.prepares, d) + 1]), Some(owner), d);
      case GotRequest(request) =>
        AdvancedKeepsCommitInv(r, r', s.(outstanding := s.outstanding - {request}), None, s.digest);
      case GotPrepare(source, d) =>
        if ChoiceOf(s, source).said == Nothing {
          AdvancedKeepsCommitInv(r, r', s.(choices := s.choices[source := Choice(SaidPrepare, Some(d))],
                                           prepares := s.prepares[d := Count(s.prepares, d) + 1]), Some(source), d);
        } else {
          OtherKeepsCommitInv(r, r', None);
        }
      case GotCommit(source, d) =>
        if ChoiceOf(s, source).said != SaidCommit {
          CountedKeepsCommitInv(c, owner, me, r, event);
        } else {
          OtherKeepsCommitInv(r, r', None);
        }
    }
  }

  lemma AllocateKeepsCommitInv(c: NetworkConfig, owner: NodeId, me: NodeId, r: Replica, r': Replica,
                               batch: seq<RequestAck>, outstanding: set<nat>)
    requires ReplicaInv(c, owner, me, r) && CommitInv(r) && r.seq_.phase == Uninitialized
    requires r'.seq_ == Allocate(r.seq_, batch, outstanding).0 && r'.hashing == (if batch == [] then None else Some(batch))
    requires r'.heard == r.heard && r'.early == r.early && r'.late == r.late && r'.echoed == r.echoed
    ensures CommitInv(r')
  {
    hide Tallied;
    hide CommitInv;
    hide Advance;
    var s0 := r.seq_.(batch := batch, outstanding := outstanding);
    if batch == [] {
      var s1 := s0.(phase := AllReady, digest := NullDigest,
                    choices := s0.choices[owner := Choice(SaidPrepare, Some(NullDigest))],
                    prepares := s0.prepares[NullDigest := Count(s0.prepares, NullDigest) + 1]);
      AdvancedKeepsCommitInv(r, r', s1, Some(owner), NullDigest);
    } else {
      AdvancedKeepsCommitInv(r, r', s0.(phase := PendingRequests), None, NullDigest);
    }
  }

  // ---------------------------------------------------------------- what is logged

  predicate IsEntry(a: Action) {
    a.PersistQ? || a.PersistP?
  }

  /** The log entries among the actions, in order. */
  function Entries(out: seq<Action>): seq<Action> {
    if out == [] then []
    else (if IsEntry(out[0]) then [out[0]] else []) + Entries(out[1..])
  }

  lemma {:induction false} EntriesConcat(a: seq<Action>, b: seq<Action>)
    ensures Entries(a + b) == Entries(a) + Entries(b)
  {
    if a == [] {
      assert a + b == b;
    } else {
      EntriesConcat(a[1..], b);
      var head := if IsEntry(a[0]) then [a[0]] else [];
      hide IsEntry;
      assert (a + b)[0] == a[0] && (a + b)[1..] == a[1..] + b;
      assert Entries(a + b) == head + (Entries(a[1..]) + Entries(b));
      Associative(head, Entries(a[1..]), Entries(b));
    }
  }

  /** A Q entry for becoming preprepared, a P entry for becoming prepared, nothing else. */
  function EntriesBetween(before: Phase, s: SeqState): seq<Action> {
    (if Crosses(before, s.phase, Preprepared) then [PersistQ(s.digest, s.batch)] else [])
    + (if Crosses(before, s.phase, Prepared) then [PersistP(s.digest)] else [])
  }

  lemma PassLogs(s: SeqState)
    ensures Entries(Pass(s).1) == EntriesBetween(s.phase, Pass(s).0)
  {
    var out := Pass(s).1;
    if |out| == 2 {
      assert out[1..] == [out[1]] && out[1..][1..] == [];
      assert Entries(out[1..]) == [];
    }
  }

  lemma BetweenComposes(before: Phase, s: SeqState, s': SeqState)
    requires Rank(before) <= Rank(s.phase) <= Rank(s'.phase) && s'.digest == s.digest && s'.batch == s.batch
    requires Crosses(before, s.phase, Prepared) ==> !Crosses(s.phase, s'.phase, Preprepared)
    ensures EntriesBetween(before, s) + EntriesBetween(s.phase, s') == EntriesBetween(before, s')
  {
  }

  lemma {:induction false} AdvanceLogs(s: SeqState)
    ensures Entries(Advance(s).1) == EntriesBetween(s.phase, Advance(s).0)
    decreases 6 - Rank(s.phase)
  {
    var (next, out) := Pass(s);
    PassLogs(s);
    if next.phase != s.phase {
      PassThenAdvance(s);
      AdvanceLogs(next);
      EntriesConcat(out, Advance(next).1);
      BetweenComposes(s.phase, next, Advance(next).0);
    } else {
      assert Advance(s) == (s, []);
    }
  }

  lemma HashLogsNothing(batch: seq<RequestAck>)
    ensures Entries([Hash(batch)]) == []
  {
    assert [Hash(batch)][1..] == [];
  }

  lemma PrepareLogs(s: SeqState, source: NodeId, d: Digest)
    ensures Entries(ApplyPrepare(s, source, d).1) == EntriesBetween(s.phase, ApplyPrepare(s, source, d).0)
  {
    hide Advance;
    AdvanceLogs(s.(choices := s.choices[source := Choice(SaidPrepare, Some(d))],
                   prepares := s.prepares[d := Count(s.prepares, d) + 1]));
  }

  lemma CommitLogs(s: SeqState, source: NodeId, d: Digest)
    ensures Entries(ApplyCommit(s, source, d).1) == EntriesBetween(s.phase, ApplyCommit(s, source, d).0)
  {
    hide Advance;
    AdvanceLogs(s.(choices := s.choices[source := Choice(SaidCommit, ChoiceOf(s, source).digest)],
                   commits := s.commits[d := Count(s.commits, d) + 1]));
  }

  lemma AllocateLogs(s: SeqState, batch: seq<RequestAck>, outstanding: set<nat>)
    requires s.phase == Uninitialized
    ensures Entries(Allocate(s, batch, outstanding).1) == EntriesBetween(s.phase, Allocate(s, batch, outstanding).0)
  {
    hide Advance;
    hide Entries;
    var s1 := s.(batch := batch, outstanding := outstanding);
    if batch == [] {
      PrepareLogs(s1.(phase := AllReady, digest := NullDigest), s.owner, NullDigest);
    } else {
      var s2 := s1.(phase := PendingRequests);
      AdvanceLogs(s2);
      HashLogsNothing(batch);
      EntriesConcat([Hash(batch)], Advance(s2).1);
      assert [] + Entries(Advance(s2).1) == Entries(Advance(s2).1);
    }
  }

  /** An event logs a Q entry exactly when it makes the sequence preprepared, and a P entry exactly when
      it makes it prepared, in this order. */
  lemma OutcomeLogs(r: Replica, event: Event)
    requires Enabled(r, event)
    ensures Entries(Outcome(r, event).1) == EntriesBetween(r.seq_.phase, Outcome(r, event).0)
  {
    hide Advance;
    hide Entries;
    hide EntriesBetween;
    hide ApplyPrepare;
    hide ApplyCommit;
    hide Allocate;
    var s := r.seq_;
    match event {
      case Propose(batch) => AllocateLogs(s, batch, {});
      case GotPreprepare(batch, outstanding) => AllocateLogs(s, batch, outstanding);
      case GotOwnPreprepare => PrepareLogs(s, s.me, s.digest);
      case HashDone => HashLogs(s, HashBatch(r.hashing.value));
      case GotRequest(request) => SatisfyLogs(s, request);
      case GotPrepare(source, d) => PrepareLogs(s, source, d);
      case GotCommit(source, d) => CommitLogs(s, source, d);
    }
  }

  lemma HashLogs(s: SeqState, d: Digest)
    ensures Entries(ApplyHash(s, d).1) == EntriesBetween(s.phase, ApplyHash(s, d).0)
  {
    hide ApplyPrepare;
    PrepareLogs(s.(digest := d), s.owner, d);
  }

  lemma SatisfyLogs(s: SeqState, request: nat)
    requires request in s.outstanding
    ensures Entries(Satisfy(s, request).1) == EntriesBetween(s.phase, Satisfy(s, request).0)
  {
    hide Advance;
    AdvanceLogs(s.(outstanding := s.outstanding - {request}));
  }

  lemma RankStays(c: NetworkConfig, owner: NodeId, me: NodeId, r: Replica, event: Event)
    requires ReplicaInv(c, owner, me, r) && Enabled(r, event)
    ensures Rank(Handle(r, event).seq_.phase) >= Rank(r.seq_.phase)
  {
    hide Tallied;
    hide Advance;
  }

  /** A preprepared sequence keeps its digest. */
  lemma DigestStays(c: NetworkConfig, owner: NodeId, me: NodeId, r: Replica, event: Event)
    requires ReplicaInv(c, owner, me, r) && Enabled(r, event) && Rank(r.seq_.phase) >= Rank(Preprepared)
    ensures Handle(r, event).seq_.digest == r.seq_.digest && Rank(Handle(r, event).seq_.phase) >= Rank(r.seq_.phase)
  {
    hide Tallied;
    hide Advance;
  }

  // ---------------------------------------------------------------- the network

  /** What a replica has recorded about correct nodes is what they sent. */
  ghost predicate VotesTruthful(c: NetworkConfig, faulty: set<NodeId>, owner: NodeId, g: Network,
                                choices: map<NodeId, Choice>)
  {
    && choices.Keys <= NodeSet(c)
    && (forall n :: n in choices && n != owner && n !in faulty && choices[n].digest.Some? ==>
                      n in g && choices[n].digest.value in g[n].prepared)
  }

  ghost predicate CommitsTruthful(c: NetworkConfig, faulty: set<NodeId>, g: Network, r: Replica) {
    forall d, n :: n in Committers(r, d) ==> n in NodeSet(c) && (n !in faulty ==> n in g && d in g[n].committed)
  }

  ghost predicate ProposalTruthful(faulty: set<NodeId>, owner: NodeId, g: Network, s: SeqState) {
    owner !in faulty && s.me != owner && s.phase != Uninitialized ==>
      owner in g && g[owner].proposed == Some(s.batch)
  }

  ghost predicate Truthful(c: NetworkConfig, faulty: set<NodeId>, owner: NodeId, g: Network, r: Replica) {
    && VotesTruthful(c, faulty, owner, g, r.seq_.choices)
    && CommitsTruthful(c, faulty, g, r)
    && ProposalTruthful(faulty, owner, g, r.seq_)
  }

  ghost predicate Inv(c: NetworkConfig, faulty: set<NodeId>, owner: NodeId, g: Network) {
    && g.Keys == NodeSet(c) - faulty
    && (forall i :: i in g ==> ReplicaInv(c, owner, i, g[i]) && CommitInv(g[i]))
    && (forall i :: i in g ==> Truthful(c, faulty, owner, g, g[i]))
    && (forall i :: i in g ==> Saturated(g[i].seq_))
  }

  /** Nothing that was sent is ever unsent. */
  ghost predicate Grows(r: Replica, r': Replica) {
    r.prepared <= r'.prepared && r.committed <= r'.committed && (r.proposed.Some? ==> r'.proposed == r.proposed)
  }

  lemma HandleGrows(c: NetworkConfig, owner: NodeId, me: NodeId, r: Replica, event: Event)
    requires ReplicaInv(c, owner, me, r) && Enabled(r, event)
    ensures Grows(r, Handle(r, event))
    ensures Saturated(r.seq_) ==> Saturated(Handle(r, event).seq_)
  {
    hide Tallied;
    hide Advance;
  }

  lemma TruthfulPersists(c: NetworkConfig, faulty: set<NodeId>, owner: NodeId, g: Network, g': Network, r: Replica)
    requires Truthful(c, faulty, owner, g, r)
    requires g.Keys == g'.Keys && forall n :: n in g ==> Grows(g[n], g'[n])
    ensures Truthful(c, faulty, owner, g', r)
  {
  }

  lemma VotesStayTruthful(c: NetworkConfig, faulty: set<NodeId>, owner: NodeId, g: Network, i: NodeId, event: Event)
    requires i in g && g[i].seq_.owner == owner && VotesTruthful(c, faulty, owner, g, g[i].seq_.choices) &&
             owner in NodeSet(c)
    requires Enabled(g[i], event) && Deliverable(faulty, g, owner, event) && (g[i].echoed ==> g[i].seq_.me == owner)
    requires event.GotPrepare? || event.GotCommit? ==> event.source in NodeSet(c)
    ensures VotesTruthful(c, faulty, owner, g, Handle(g[i], event).seq_.choices)
  {
    hide Advance;
  }

  lemma CommitsStayTruthful(c: NetworkConfig, faulty: set<NodeId>, owner: NodeId, g: Network, i: NodeId, event: Event)
    requires i in g && CommitsTruthful(c, faulty, g, g[i])
    requires Enabled(g[i], event) && Deliverable(faulty, g, owner, event)
    requires event.GotPrepare? || event.GotCommit? ==> event.source in NodeSet(c)
    ensures CommitsTruthful(c, faulty, g, Handle(g[i], event))
  {
    hide Outcome;
    var r' := Handle(g[i], event);
    forall d, n | n in Committers(r', d) ensures n in Committers(g[i], d) || event == GotCommit(n, d) {
    }
  }

  lemma ProposalStaysTruthful(faulty: set<NodeId>, owner: NodeId, g: Network, i: NodeId, event: Event)
    requires i in g && g[i].seq_.owner == owner && ProposalTruthful(faulty, owner, g, g[i].seq_)
    requires Enabled(g[i], event) && Deliverable(faulty, g, owner, event)
    ensures ProposalTruthful(faulty, owner, g, Handle(g[i], event).seq_)
  {
    hide Advance;
    forall s ensures Advance(s).0.phase == Uninitialized <==> s.phase == Uninitialized {
      PhaseAfterAdvance(s);
    }
  }

  lemma InvOwner(c: NetworkConfig, faulty: set<NodeId>, owner: NodeId, g: Network, i: NodeId)
    requires Inv(c, faulty, owner, g) && i in g
    ensures g[i].seq_.owner == owner && (g[i].echoed ==> g[i].seq_.me == owner)
  {
    hide Tallied;
    hide Truthful;
    assert ReplicaInv(c, owner, i, g[i]);
  }

  /** Every step keeps the invariant of the network. */
  lemma NextKeepsInv(c: NetworkConfig, faulty: set<NodeId>, owner: NodeId, g: Network, g': Network, i: NodeId,
                     event: Event)
    requires Inv(c, faulty, owner, g) && Next(c, faulty, owner, g, g', i, event) && owner in NodeSet(c)
    ensures Inv(c, faulty, owner, g')
  {
    hide Handle;
    hide ReplicaInv;
    hide CommitInv;
    hide Saturated;
    hide VotesTruthful;
    hide CommitsTruthful;
    hide ProposalTruthful;
    hide Deliverable;
    hide Enabled;
    var r' := Handle(g[i], event);
    InvOwner(c, faulty, owner, g, i);
    HandleKeepsInv(c, owner, i, g[i], event);
    HandleKeepsCommitInv(c, owner, i, g[i], event);
    HandleGrows(c, owner, i, g[i], event);
    assert Truthful(c, faulty, owner, g, r') by {
      VotesStayTruthful(c, faulty, owner, g, i, event);
      CommitsStayTruthful(c, faulty, owner, g, i, event);
      ProposalStaysTruthful(faulty, owner, g, i, event);
    }
    forall j | j in g' ensures Truthful(c, faulty, owner, g', g'[j]) {
      assert forall n :: n in g ==> Grows(g[n], g'[n]);
      TruthfulPersists(c, faulty, owner, g, g', g'[j]);
    }
  }

  lemma {:induction false} RunKeepsInv(c: NetworkConfig, faulty: set<NodeId>, owner: NodeId, run: seq<Network>, t: nat)
    requires IsRun(c, faulty, owner, run) && t < |run|
    ensures Inv(c, faulty, owner, run[t])
  {
    if t == 0 {
      FreshInv(c, faulty, owner, run[0]);
    } else {
      RunKeepsInv(c, faulty, owner, run, t - 1);
      var i, event :| Next(c, faulty, owner, run[t - 1], run[t], i, event);
      NextKeepsInv(c, faulty, owner, run[t - 1], run[t], i, event);
    }
  }

  lemma FreshInv(c: NetworkConfig, faulty: set<NodeId>, owner: NodeId, g: Network)
    requires g.Keys == NodeSet(c) - faulty && forall i :: i in g ==> g[i] == Fresh(c, owner, i)
    ensures Inv(c, faulty, owner, g)
  {
    forall i | i in g ensures Tallied(g[i]) {
      assert forall d :: Voters(map[], d) == {};
    }
  }

  // ---------------------------------------------------------------- agreement

  /** The nodes whose prepares a replica counted, once it is prepared. */
  lemma PreparedVoters(c: NetworkConfig, faulty: set<NodeId>, owner: NodeId, g: Network, i: NodeId)
    requires FaultBound(c, faulty) && Inv(c, faulty, owner, g) && i in g && Rank(g[i].seq_.phase) >= Rank(Prepared)
    ensures i != owner ==> IsQuorum(c, Voters(g[i].seq_.choices, g[i].seq_.digest))
    ensures |Voters(g[i].seq_.choices, g[i].seq_.digest)| >= IntersectionQuorum(c) - 1
  {
    assert TalliedFor(g[i], g[i].seq_.digest);
  }

  lemma PreparedAgreeFaultyOwner(c: NetworkConfig, faulty: set<NodeId>, owner: NodeId, g: Network, i: NodeId, j: NodeId)
    requires FaultBound(c, faulty) && owner in faulty && Inv(c, faulty, owner, g) && i in g && j in g
    requires Rank(g[i].seq_.phase) >= Rank(Prepared) && Rank(g[j].seq_.phase) >= Rank(Prepared)
    ensures g[i].seq_.digest == g[j].seq_.digest
  {
    hide Tallied;
    hide CommitInv;
    hide CommitsTruthful;
    hide Saturated;
    PreparedVoters(c, faulty, owner, g, i);
    PreparedVoters(c, faulty, owner, g, j);
    var n := SharedCorrect(c, faulty, Voters(g[i].seq_.choices, g[i].seq_.digest),
                           Voters(g[j].seq_.choices, g[j].seq_.digest));
    assert VotesTruthful(c, faulty, owner, g, g[i].seq_.choices) && VotesTruthful(c, faulty, owner, g, g[j].seq_.choices);
    assert ReplicaInv(c, owner, n, g[n]);
  }

  lemma HashedAgreeCorrectOwner(c: NetworkConfig, faulty: set<NodeId>, owner: NodeId, g: Network, i: NodeId)
    requires owner in NodeSet(c) - faulty && Inv(c, faulty, owner, g) && i in g && Hashed(g[i])
    ensures owner in g && g[i].seq_.batch == g[owner].seq_.batch
  {
    hide Tallied;
    hide CommitInv;
    hide CommitsTruthful;
    hide VotesTruthful;
    hide Saturated;
    assert ReplicaInv(c, owner, i, g[i]) && ProposalTruthful(faulty, owner, g, g[i].seq_);
    assert ReplicaInv(c, owner, owner, g[owner]);
  }

  lemma PreparedDigest(c: NetworkConfig, faulty: set<NodeId>, owner: NodeId, g: Network, i: NodeId)
    requires Inv(c, faulty, owner, g) && i in g && Rank(g[i].seq_.phase) >= Rank(Prepared)
    ensures Hashed(g[i]) && g[i].seq_.digest == BatchHash(g[i].seq_.batch)
  {
    hide Tallied;
    hide Truthful;
    hide CommitInv;
    assert ReplicaInv(c, owner, i, g[i]);
  }

  /** Two correct replicas that reach the prepared phase for a sequence number in an epoch hold the same
      digest, whatever the faulty nodes and the owner do, and a correct owner's batch. */
  lemma PreparedAgree(c: NetworkConfig, faulty: set<NodeId>, owner: NodeId, g: Network, i: NodeId, j: NodeId)
    requires FaultBound(c, faulty) && owner in NodeSet(c) && Inv(c, faulty, owner, g) && i in g && j in g
    requires Rank(g[i].seq_.phase) >= Rank(Prepared) && Rank(g[j].seq_.phase) >= Rank(Prepared)
    ensures g[i].seq_.digest == g[j].seq_.digest
    ensures owner !in faulty ==> g[i].seq_.batch == g[j].seq_.batch
  {
    hide Inv;
    PreparedDigest(c, faulty, owner, g, i);
    PreparedDigest(c, faulty, owner, g, j);
    if owner in faulty {
      PreparedAgreeFaultyOwner(c, faulty, owner, g, i, j);
    } else {
      HashedAgreeCorrectOwner(c, faulty, owner, g, i);
      HashedAgreeCorrectOwner(c, faulty, owner, g, j);
    }
  }

  /** Over every run: whatever two correct replicas prepare or commit for the sequence number is the
      same.  The digest covers the digests of the requests, not their client and number. */
  lemma RunAgreement(c: NetworkConfig, faulty: set<NodeId>, owner: NodeId, run: seq<Network>, t: nat, i: NodeId,
                     j: NodeId)
    requires IsRun(c, faulty, owner, run) && t < |run| && i in run[t] && j in run[t]
    requires Rank(run[t][i].seq_.phase) >= Rank(Prepared) && Rank(run[t][j].seq_.phase) >= Rank(Prepared)
    ensures run[t][i].seq_.digest == run[t][j].seq_.digest
    ensures owner !in faulty ==> run[t][i].seq_.batch == run[t][j].seq_.batch
  {
    hide Inv;
    hide NextAny;
    RunKeepsInv(c, faulty, owner, run, t);
    PreparedAgree(c, faulty, owner, run[t], i, j);
  }

  /** The nodes whose commits a replica counted, once it has committed: a quorum, unless the tally was
      filled by counting the owner twice. */
  lemma CommittersCount(c: NetworkConfig, faulty: set<NodeId>, owner: NodeId, g: Network, i: NodeId)
    requires Inv(c, faulty, owner, g) && i in g && g[i].seq_.phase == Committed
    ensures Committers(g[i], g[i].seq_.digest) <= NodeSet(c)
    ensures IsQuorum(c, Committers(g[i], g[i].seq_.digest)) <==> !FilledTwice(c, g[i])
    ensures |Committers(g[i], g[i].seq_.digest)| >= IntersectionQuorum(c) - 1
  {
    hide Tallied;
    hide VotesTruthful;
    hide ProposalTruthful;
    hide Saturated;
    assert ReplicaInv(c, owner, i, g[i]) && CommitInv(g[i]) && CommitsTruthful(c, faulty, g, g[i]);
    assert CommitsExact(g[i], g[i].seq_.digest);
  }

  /** The commit tally is just full and the owner is in it twice. */
  predicate FilledTwice(c: NetworkConfig, r: Replica) {
    Recounted(r, r.seq_.digest) && Count(r.seq_.commits, r.seq_.digest) == IntersectionQuorum(c)
  }

  lemma CommitterPrepared(c: NetworkConfig, faulty: set<NodeId>, owner: NodeId, g: Network, i: NodeId, n: NodeId)
    requires Inv(c, faulty, owner, g) && i in g && n in Committers(g[i], g[i].seq_.digest) && n !in faulty
    ensures n in g && Rank(g[n].seq_.phase) >= Rank(Prepared) && g[n].seq_.digest == g[i].seq_.digest
  {
    hide Tallied;
    hide CommitInv;
    assert CommitsTruthful(c, faulty, g, g[i]);
    assert ReplicaInv(c, owner, n, g[n]);
  }

  /** Every intersection quorum holds a correct node of `voters`. */
  ghost predicate InEveryQuorum(c: NetworkConfig, faulty: set<NodeId>, voters: set<NodeId>) {
    forall q :: IsQuorum(c, q) ==> exists n :: n in q && n in voters && n !in faulty
  }

  lemma InEveryQuorumIff(c: NetworkConfig, faulty: set<NodeId>, voters: set<NodeId>)
    requires FaultBound(c, faulty) && voters <= NodeSet(c)
    ensures InEveryQuorum(c, faulty, voters) <==> |voters - faulty| > |c.nodes| - IntersectionQuorum(c)
    ensures IsQuorum(c, voters) ==> InEveryQuorum(c, faulty, voters)
  {
    NodeSetSize(c);
    hide NodeSet;
    var correct := voters - faulty;
    if |correct| > |c.nodes| - IntersectionQuorum(c) {
      forall q: set<NodeId> | IsQuorum(c, q) ensures exists n :: n in q && n in voters && n !in faulty {
        var n := Meets(q, correct, NodeSet(c));
      }
    } else {
      var rest := NodeSet(c) - correct;
      UnionSize(rest, correct);
      assert rest + correct == NodeSet(c);
      assert IsQuorum(c, rest);
    }
    if IsQuorum(c, voters) {
      forall q: set<NodeId> | IsQuorum(c, q) ensures exists n :: n in q && n in voters && n !in faulty {
        var n := SharedCorrect(c, faulty, q, voters);
      }
    }
  }

  lemma Meets<T>(a: set<T>, b: set<T>, all: set<T>) returns (x: T)
    requires a <= all && b <= all && |a| + |b| > |all|
    ensures x in a && x in b
  {
    if a !! b {
      UnionSize(a, b);
      SubsetSize(a + b, all);
      assert false;
    }
    x :| x in a && x in b;
  }

  /** When a correct replica has committed, the nodes it counted have all prepared its digest if they
      are correct.  They reach into every intersection quorum exactly if more than n-q of them are
      correct, which holds unless the owner's second commit filled the tally. */
  lemma CommittedBacked(c: NetworkConfig, faulty: set<NodeId>, owner: NodeId, run: seq<Network>, t: nat, i: NodeId)
    requires IsRun(c, faulty, owner, run) && t < |run| && i in run[t] && run[t][i].seq_.phase == Committed
    ensures
      var g, d := run[t], run[t][i].seq_.digest;
      var counted := Committers(g[i], d);
      && (forall n :: n in counted && n !in faulty ==>
                        n in g && Rank(g[n].seq_.phase) >= Rank(Prepared) && g[n].seq_.digest == d)
      && (InEveryQuorum(c, faulty, counted) <==> |counted - faulty| > |c.nodes| - IntersectionQuorum(c))
      && (IsQuorum(c, counted) <==> !FilledTwice(c, g[i]))
      && (!FilledTwice(c, g[i]) ==> InEveryQuorum(c, faulty, counted))
  {
    hide Inv;
    hide NextAny;
    hide InEveryQuorum;
    hide FilledTwice;
    RunKeepsInv(c, faulty, owner, run, t);
    var g := run[t];
    CommittersCount(c, faulty, owner, g, i);
    var counted := Committers(g[i], g[i].seq_.digest);
    InEveryQuorumIff(c, faulty, counted);
    forall n | n in counted && n !in faulty
      ensures n in g && Rank(g[n].seq_.phase) >= Rank(Prepared) && g[n].seq_.digest == g[i].seq_.digest
    {
      CommitterPrepared(c, faulty, owner, g, i, n);
    }
  }

  lemma CommitSilent(c: NetworkConfig, owner: NodeId, me: NodeId, r: Replica, event: Event)
    requires ReplicaInv(c, owner, me, r) && Saturated(r.seq_) && event.GotCommit? && Enabled(r, event)
    ensures Outcome(r, event).1 == []
  {
    hide Tallied;
    hide Saturated;
    hide ApplyCommit;
    DroppedActionsEmpty(r.seq_, event.source, event.digest);
  }

  /** The caller drops what a commit message makes a sequence do; over every run that is nothing. */
  lemma NothingDropped(c: NetworkConfig, faulty: set<NodeId>, owner: NodeId, run: seq<Network>, t: nat, i: NodeId,
                       event: Event)
    requires IsRun(c, faulty, owner, run) && t < |run| && i in run[t] && event.GotCommit? && Enabled(run[t][i], event)
    ensures Outcome(run[t][i], event).1 == []
  {
    hide NextAny;
    hide Truthful;
    hide CommitInv;
    hide ReplicaInv;
    hide Outcome;
    hide Saturated;
    RunKeepsInv(c, faulty, owner, run, t);
    CommitSilent(c, owner, i, run[t][i], event);
  }
}
