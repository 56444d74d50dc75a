/** One sequence number's three-phase commit at one replica. */
module Sequences {
  import opened Types
  import opened Quorums

  datatype Phase = Uninitialized | Allocated | PendingRequests | AllReady | Preprepared | Prepared | Committed

  function Rank(p: Phase): nat {
    match p
    case Uninitialized => 0
    case Allocated => 1
    case PendingRequests => 2
    case AllReady => 3
    case Preprepared => 4
    case Prepared => 5
    case Committed => 6
  }

  datatype Said = Nothing | SaidPrepare | SaidCommit

  /** What a node has said about the sequence; `digest` is unset until it has prepared something. */
  datatype Choice = Choice(said: Said, digest: Option<Digest>)

  datatype Action =
    | Hash(batch: seq<RequestAck>)
    | PersistQ(digest: Digest, batch: seq<RequestAck>)
    | PersistP(digest: Digest)
    | SendPreprepare(batch: seq<RequestAck>)
    | SendPrepare(digest: Digest)
    | SendCommit(digest: Digest)

  datatype SeqState = SeqState(
    owner: NodeId,
    me: NodeId,
    quorum: nat,
    phase: Phase,
    batch: seq<RequestAck>,
    outstanding: set<nat>,             // digests of requests still to be received
    digest: Digest,
    choices: map<NodeId, Choice>,
    prepares: map<Digest, nat>,
    commits: map<Digest, nat>)

  function NewSequence(owner: NodeId, me: NodeId, quorum: nat): SeqState {
    SeqState(owner, me, quorum, Uninitialized, [], {}, NullDigest, map[], map[], map[])
  }

  function Count(tally: map<Digest, nat>, d: Digest): nat {
    if d in tally then tally[d] else 0
  }

  function ChoiceOf(s: SeqState, n: NodeId): Choice {
    if n in s.choices then s.choices[n] else Choice(Nothing, None)
  }

  function DigestOf(choice: Choice): Digest {
    if choice.digest.Some? then choice.digest.value else NullDigest
  }

  predicate MayPreprepare(s: SeqState) {
    s.phase == AllReady && (s.digest != NullDigest || s.batch == [])
  }

  predicate MayPrepare(s: SeqState) {
    && s.phase == Preprepared
    && ChoiceOf(s, s.me).said != Nothing
    && DigestOf(ChoiceOf(s, s.me)) == s.digest
    && Count(s.prepares, s.digest) >= s.quorum
  }

  predicate MayCommit(s: SeqState) {
    && s.phase == Prepared
    && ChoiceOf(s, s.me).said == SaidCommit
    && Count(s.commits, s.digest) >= s.quorum
  }

  /** One pass through the state switch. */
  function Pass(s: SeqState): (SeqState, seq<Action>) {
    if s.phase == PendingRequests && s.outstanding == {} then (s.(phase := AllReady), [])
    else if MayPreprepare(s) then
      (s.(phase := Preprepared),
       [PersistQ(s.digest, s.batch), if s.owner == s.me then SendPreprepare(s.batch) else SendPrepare(s.digest)])
    else if MayPrepare(s) then (s.(phase := Prepared), [PersistP(s.digest), SendCommit(s.digest)])
    else if MayCommit(s) then (s.(phase := Committed), [])
    else (s, [])
  }

  predicate Saturated(s: SeqState) {
    Pass(s) == (s, [])
  }

  function Advance(s: SeqState): (r: (SeqState, seq<Action>))
    ensures Saturated(r.0)
    ensures Rank(r.0.phase) >= Rank(s.phase)
    ensures r.0 == s.(phase := r.0.phase)
    decreases 6 - Rank(s.phase)
  {
    var (next, out) := Pass(s);
    if next.phase == s.phase then (s, [])
    else
      var (last, more) := Advance(next);
      (last, out + more)
  }

  lemma PassThenAdvance(s: SeqState)
    requires Pass(s).0.phase != s.phase
    ensures Advance(s) == (Advance(Pass(s).0).0, Pass(s).1 + Advance(Pass(s).0).1)
    ensures Rank(Pass(s).0.phase) > Rank(s.phase)
  {
  }

  lemma PhaseAfterAdvance(s: SeqState)
    ensures Advance(s).0.phase == Uninitialized <==> s.phase == Uninitialized
  {
  }

  function ApplyPrepare(s: SeqState, source: NodeId, d: Digest): (SeqState, seq<Action>) {
    if source != s.owner && ChoiceOf(s, source).said != Nothing then (s, [])
    else Advance(s.(choices := s.choices[source := Choice(SaidPrepare, Some(d))],
                    prepares := s.prepares[d := Count(s.prepares, d) + 1]))
  }

  function ApplyCommit(s: SeqState, source: NodeId, d: Digest): (SeqState, seq<Action>) {
    if ChoiceOf(s, source).said == SaidCommit then (s, [])
    else Advance(s.(choices := s.choices[source := Choice(SaidCommit, ChoiceOf(s, source).digest)],
                    commits := s.commits[d := Count(s.commits, d) + 1]))
  }

  function ApplyHash(s: SeqState, d: Digest): (SeqState, seq<Action>) {
    ApplyPrepare(s.(digest := d), s.owner, d)
  }

  function Allocate(s: SeqState, batch: seq<RequestAck>, outstanding: set<nat>): (SeqState, seq<Action>)
    requires s.phase == Uninitialized
  {
    var s1 := s.(batch := batch, outstanding := outstanding);
    if batch == [] then ApplyHash(s1.(phase := AllReady), NullDigest)
    else
      var (last, more) := Advance(s1.(phase := PendingRequests));
      (last, [Hash(batch)] + more)
  }

  function Satisfy(s: SeqState, request: nat): (SeqState, seq<Action>)
    requires request in s.outstanding
  {
    Advance(s.(outstanding := s.outstanding - {request}))
  }

  // ---------------------------------------------------------------- the sequence object

  class Sequence {
    const owner: NodeId
    const me: NodeId
    const quorum: nat
    var phase: Phase
    var batch: seq<RequestAck>
    var outstanding: set<nat>
    var digest: Digest
    var choices: map<NodeId, Choice>
    var prepares: map<Digest, nat>
    var commits: map<Digest, nat>

    ghost function View(): SeqState
      reads this
    {
      SeqState(owner, me, quorum, phase, batch, outstanding, digest, choices, prepares, commits)
    }

    constructor (c: NetworkConfig, owner: NodeId, me: NodeId)
      ensures View() == NewSequence(owner, me, IntersectionQuorum(c))
    {
      this.owner, this.me, quorum := owner, me, IntersectionQuorum(c);
      phase, batch, outstanding, digest := Uninitialized, [], {}, NullDigest;
      choices, prepares, commits := map[], map[], map[];
    }

    function MyChoice(): Choice
      reads this
    {
      if me in choices then choices[me] else Choice(Nothing, None)
    }

    method CheckRequests()
      modifies this`phase
      ensures phase == if outstanding == {} then AllReady else old(phase)
    {
      if outstanding != {} {
        return;
      }
      phase := AllReady;
    }

    method PrepareBatch() returns (out: seq<Action>)
      modifies this`phase
      ensures phase == Preprepared
      ensures out == [PersistQ(digest, batch), if owner == me then SendPreprepare(batch) else SendPrepare(digest)]
    {
      phase := Preprepared;
      out := [PersistQ(digest, batch)];
      if owner == me {
        out := out + [SendPreprepare(batch)];
      } else {
        out := out + [SendPrepare(digest)];
      }
    }

    method CheckPrepareQuorum() returns (out: seq<Action>)
      requires phase == Preprepared
      modifies this`phase
      ensures (View(), out) == Pass(old(View()))
    {
      var agreements := if digest in prepares then prepares[digest] else 0;
      if MyChoice().said == Nothing {
        return [];
      }
      if DigestOf(MyChoice()) != digest {
        return [];
      }
      if agreements < quorum {
        return [];
      }
      phase := Prepared;
      out := [PersistP(digest), SendCommit(digest)];
    }

    method CheckCommitQuorum()
      requires phase == Prepared
      modifies this`phase
      ensures (View(), []) == Pass(old(View()))
    {
      var agreements := if digest in commits then commits[digest] else 0;
      if MyChoice().said != SaidCommit {
        return;
      }
      if agreements < quorum {
        return;
      }
      phase := Committed;
    }

    method SwitchOnState() returns (out: seq<Action>)
      modifies this`phase
      ensures (View(), out) == Pass(old(View()))
    {
      out := [];
      match phase {
        case Uninitialized =>
        case Allocated =>
        case PendingRequests => CheckRequests();
        case AllReady =>
          if digest != NullDigest || |batch| == 0 {
            out := PrepareBatch();
          }
        case Preprepared => out := CheckPrepareQuorum();
        case Prepared => CheckCommitQuorum();
        case Committed =>
      }
    }

    method AdvanceState() returns (out: seq<Action>)
      modifies this`phase
      ensures (View(), out) == Advance(old(View()))
    {
      hide Pass;
      out := [];
      assert out + Advance(View()).1 == Advance(View()).1;
      while true
        invariant Advance(old(View())) == (Advance(View()).0, out + Advance(View()).1)
        decreases 6 - Rank(phase)
      {
        ghost var s := View();
        var before := phase;
        var more := SwitchOnState();
        if phase == before {
          assert out + [] == out;
          return;
        }
        PassThenAdvance(s);
        assert out + (more + Advance(View()).1) == out + more + Advance(View()).1;
        out := out + more;
      }
    }

    method ApplyPrepareMsg(source: NodeId, d: Digest) returns (out: seq<Action>)
      modifies this`phase, this`choices, this`prepares
      ensures (View(), out) == ApplyPrepare(old(View()), source, d)
    {
      hide Advance;
      var choice := if source in choices then choices[source] else Choice(Nothing, None);
      if source != owner && choice.said != Nothing {
        return [];
      }
      choices := choices[source := Choice(SaidPrepare, Some(d))];
      prepares := prepares[d := (if d in prepares then prepares[d] else 0) + 1];
      out := AdvanceState();
    }

    /** The branch of the source that would count a commit as an implicit prepare tests the state that
        was just overwritten, so it is never taken. */
    method ApplyCommitMsg(source: NodeId, d: Digest) returns (out: seq<Action>)
      modifies this`phase, this`choices, this`commits
      ensures (View(), out) == ApplyCommit(old(View()), source, d)
    {
      hide Advance;
      var choice := if source in choices then choices[source] else Choice(Nothing, None);
      if choice.said == SaidCommit {
        return [];
      }
      choices := choices[source := choice.(said := SaidCommit)];
      commits := commits[d := (if d in commits then commits[d] else 0) + 1];
      out := AdvanceState();
    }

    method ApplyBatchHashResult(d: Digest) returns (out: seq<Action>)
      modifies this`phase, this`choices, this`prepares, this`digest
      ensures (View(), out) == ApplyHash(old(View()), d)
    {
      digest := d;
      out := ApplyPrepareMsg(owner, d);
    }

    method AllocateBatch(requestAcks: seq<RequestAck>, outstandingReqs: set<nat>) returns (out: seq<Action>)
      requires phase == Uninitialized
      modifies this
      ensures (View(), out) == Allocate(old(View()), requestAcks, outstandingReqs)
    {
      phase, batch, outstanding := Allocated, requestAcks, outstandingReqs;
      if |requestAcks| == 0 {
        phase := AllReady;
        out := ApplyBatchHashResult(NullDigest);
        return;
      }
      phase := PendingRequests;
      var more := AdvanceState();
      out := [Hash(requestAcks)] + more;
    }

    method SatisfyOutstanding(request: nat) returns (out: seq<Action>)
      requires request in outstanding
      modifies this`phase, this`outstanding
      ensures (View(), out) == Satisfy(old(View()), request)
    {
      outstanding := outstanding - {request};
      out := AdvanceState();
    }
  }

  // ---------------------------------------------------------------- saturation

  /** Every operation ends saturated and never moves the phase back. */
  lemma OperationsSaturate(s: SeqState, source: NodeId, d: Digest, batch: seq<RequestAck>, requests: set<nat>, r: nat)
    requires Saturated(s)
    ensures Saturated(ApplyPrepare(s, source, d).0) && Rank(ApplyPrepare(s, source, d).0.phase) >= Rank(s.phase)
    ensures Saturated(ApplyCommit(s, source, d).0) && Rank(ApplyCommit(s, source, d).0.phase) >= Rank(s.phase)
    ensures Saturated(ApplyHash(s, d).0) && Rank(ApplyHash(s, d).0.phase) >= Rank(s.phase)
    ensures s.phase == Uninitialized ==>
              Saturated(Allocate(s, batch, requests).0) && Rank(Allocate(s, batch, requests).0.phase) >= Rank(AllReady) - 1
    ensures r in s.outstanding ==> Saturated(Satisfy(s, r).0) && Rank(Satisfy(s, r).0.phase) >= Rank(s.phase)
  {
  }

  /** The actions of a commit message, which the caller drops, are empty unless the message is the
      replica's own and comes before its own prepare while everything else to prepare is there. */
  lemma DroppedActionsEmpty(s: SeqState, source: NodeId, d: Digest)
    requires Saturated(s)
    ensures ApplyCommit(s, source, d).1 != [] <==>
            && s.phase == Preprepared && source == s.me && ChoiceOf(s, s.me).said == Nothing
            && DigestOf(ChoiceOf(s, s.me)) == s.digest && Count(s.prepares, s.digest) >= s.quorum
  {
    if ChoiceOf(s, source).said != SaidCommit {
      var s1 := s.(choices := s.choices[source := Choice(SaidCommit, ChoiceOf(s, source).digest)],
                   commits := s.commits[d := Count(s.commits, d) + 1]);
      assert source != s.me ==> ChoiceOf(s1, s.me) == ChoiceOf(s, s.me);
      hide ChoiceOf;
      hide DigestOf;
      hide Count;
      var next := Pass(s1).0;
      if next.phase == s1.phase {
        assert Advance(s1).1 == [];
      } else {
        PassThenAdvance(s1);
        if next.phase == Committed {
          assert Advance(next) == (next, []);
        }
      }
    }
  }

  // ---------------------------------------------------------------- what is done from phase to phase

  predicate Crosses(before: Phase, after: Phase, p: Phase) {
    Rank(before) < Rank(p) <= Rank(after)
  }

  /** Becoming preprepared logs the batch and sends the preprepare, at the owner, or a prepare; becoming
      prepared logs the digest and sends a commit; nothing else is done. */
  function ActionsBetween(before: Phase, s: SeqState): seq<Action> {
    (if Crosses(before, s.phase, Preprepared)
     then [PersistQ(s.digest, s.batch), if s.owner == s.me then SendPreprepare(s.batch) else SendPrepare(s.digest)] else [])
    + (if Crosses(before, s.phase, Prepared) then [PersistP(s.digest), SendCommit(s.digest)] else [])
  }

  lemma ActionsCompose(before: Phase, s: SeqState, s': SeqState)
    requires Rank(before) <= Rank(s.phase) <= Rank(s'.phase) && s' == s.(phase := s'.phase)
    ensures ActionsBetween(before, s) + ActionsBetween(s.phase, s') == ActionsBetween(before, s')
  {
  }

  lemma {:induction false} AdvanceActs(s: SeqState)
    ensures Advance(s).1 == ActionsBetween(s.phase, Advance(s).0)
    decreases 6 - Rank(s.phase)
  {
    var (next, out) := Pass(s);
    if next.phase != s.phase {
      AdvanceActs(next);
      PassThenAdvance(s);
      hide Advance;
      assert out == ActionsBetween(s.phase, next);
      ActionsCompose(s.phase, next, Advance(next).0);
    }
  }

  lemma PrepareActs(s: SeqState, source: NodeId, d: Digest)
    ensures ApplyPrepare(s, source, d).1 == ActionsBetween(s.phase, ApplyPrepare(s, source, d).0)
  {
    hide Advance;
    AdvanceActs(s.(choices := s.choices[source := Choice(SaidPrepare, Some(d))],
                   prepares := s.prepares[d := Count(s.prepares, d) + 1]));
  }

  lemma CommitActs(s: SeqState, source: NodeId, d: Digest)
    ensures ApplyCommit(s, source, d).1 == ActionsBetween(s.phase, ApplyCommit(s, source, d).0)
  {
    hide Advance;
    AdvanceActs(s.(choices := s.choices[source := Choice(SaidCommit, ChoiceOf(s, source).digest)],
                   commits := s.commits[d := Count(s.commits, d) + 1]));
  }

  lemma HashActs(s: SeqState, d: Digest)
    ensures ApplyHash(s, d).1 == ActionsBetween(s.phase, ApplyHash(s, d).0)
  {
    hide ApplyPrepare;
    PrepareActs(s.(digest := d), s.owner, d);
  }

  lemma SatisfyActs(s: SeqState, r: nat)
    requires r in s.outstanding
    ensures Satisfy(s, r).1 == ActionsBetween(s.phase, Satisfy(s, r).0)
  {
    hide Advance;
    AdvanceActs(s.(outstanding := s.outstanding - {r}));
  }

  lemma AllocateActs(s: SeqState, batch: seq<RequestAck>, requests: set<nat>)
    requires s.phase == Uninitialized
    ensures Allocate(s, batch, requests).1 ==
            (if batch == [] then [] else [Hash(batch)]) + ActionsBetween(s.phase, Allocate(s, batch, requests).0)
  {
    hide Advance;
    var s1 := s.(batch := batch, outstanding := requests);
    if batch == [] {
      var s2 := s1.(phase := AllReady, digest := NullDigest);
      PrepareActs(s2, s.owner, NullDigest);
      hide ApplyPrepare;
      var out := Allocate(s, batch, requests).1;
      assert [] + out == out;
    } else {
      AdvanceActs(s1.(phase := PendingRequests));
    }
  }

  /** The actions of every operation are those of the phases that it goes through, after the request for a
      hash if it allocates a batch. */
  lemma OperationsAct(s: SeqState, source: NodeId, d: Digest, batch: seq<RequestAck>, requests: set<nat>, r: nat)
    ensures ApplyPrepare(s, source, d).1 == ActionsBetween(s.phase, ApplyPrepare(s, source, d).0)
    ensures ApplyCommit(s, source, d).1 == ActionsBetween(s.phase, ApplyCommit(s, source, d).0)
    ensures ApplyHash(s, d).1 == ActionsBetween(s.phase, ApplyHash(s, d).0)
    ensures r in s.outstanding ==> Satisfy(s, r).1 == ActionsBetween(s.phase, Satisfy(s, r).0)
    ensures s.phase == Uninitialized ==>
              Allocate(s, batch, requests).1 ==
              (if batch == [] then [] else [Hash(batch)]) + ActionsBetween(s.phase, Allocate(s, batch, requests).0)
  {
    hide Advance;
    hide ApplyPrepare;
    hide ApplyCommit;
    hide Satisfy;
    hide ActionsBetween;
    PrepareActs(s, source, d);
    CommitActs(s, source, d);
    HashActs(s, d);
    if r in s.outstanding {
      SatisfyActs(s, r);
    }
    if s.phase == Uninitialized {
      AllocateActs(s, batch, requests);
      hide Allocate;
    }
  }

  /** No sequence goes on while it waits for requests. */
  predicate HasRequests(s: SeqState) {
    Rank(s.phase) >= Rank(AllReady) && s.batch != [] ==> s.outstanding == {}
  }

  lemma {:induction false} AdvanceHasRequests(s: SeqState)
    requires HasRequests(s)
    ensures HasRequests(Advance(s).0)
    decreases 6 - Rank(s.phase)
  {
    var next := Pass(s).0;
    if next.phase != s.phase {
      AdvanceHasRequests(next);
      PassThenAdvance(s);
    }
  }

  lemma OperationsHaveRequests(s: SeqState, source: NodeId, d: Digest, batch: seq<RequestAck>, requests: set<nat>, r: nat)
    requires HasRequests(s)
    ensures HasRequests(ApplyPrepare(s, source, d).0) && HasRequests(ApplyCommit(s, source, d).0)
    ensures HasRequests(ApplyHash(s, d).0)
    ensures s.phase == Uninitialized ==> HasRequests(Allocate(s, batch, requests).0)
    ensures r in s.outstanding ==> HasRequests(Satisfy(s, r).0)
  {
    hide Advance;
    forall s | HasRequests(s) ensures HasRequests(Advance(s).0) {
      AdvanceHasRequests(s);
    }
  }

  // ---------------------------------------------------------------- what is given to the hasher

  ghost predicate NoHash(out: seq<Action>) {
    forall i :: 0 <= i < |out| ==> !out[i].Hash?
  }

  /** The batch that the actions ask to be hashed, if any. */
  function Asked(out: seq<Action>): Option<seq<RequestAck>> {
    if out == [] then None
    else if out[0].Hash? then Some(out[0].batch)
    else Asked(out[1..])
  }

  lemma {:induction false} NothingAsked(out: seq<Action>)
    requires NoHash(out)
    ensures Asked(out) == None
  {
    if out != [] {
      NothingAsked(out[1..]);
    }
  }

  lemma {:induction false} AdvanceHashesNothing(s: SeqState)
    ensures NoHash(Advance(s).1)
    decreases 6 - Rank(s.phase)
  {
    var next := Pass(s).0;
    if next.phase != s.phase {
      AdvanceHashesNothing(next);
      PassThenAdvance(s);
    }
  }

  /** Allocating a non-empty batch asks for its hash, once and before anything else; no other operation
      asks for one. */
  lemma OperationsHash(s: SeqState, source: NodeId, d: Digest, batch: seq<RequestAck>, requests: set<nat>, r: nat)
    ensures NoHash(ApplyPrepare(s, source, d).1) && NoHash(ApplyCommit(s, source, d).1) && NoHash(ApplyHash(s, d).1)
    ensures r in s.outstanding ==> NoHash(Satisfy(s, r).1)
    ensures s.phase == Uninitialized && batch == [] ==> NoHash(Allocate(s, batch, requests).1)
    ensures s.phase == Uninitialized && batch != [] ==>
              var out := Allocate(s, batch, requests).1; |out| > 0 && out[0] == Hash(batch) && NoHash(out[1..])
  {
    hide Advance;
    forall s ensures NoHash(Advance(s).1) {
      AdvanceHashesNothing(s);
    }
  }

  // ---------------------------------------------------------------- persist before send

  predicate IsSend(a: Action) {
    a.SendPreprepare? || a.SendPrepare? || a.SendCommit?
  }

  /** The log entry that must be there before a message leaves. */
  predicate Supports(entry: Action, message: Action) {
    match message
    case SendPreprepare(batch) => entry.PersistQ? && entry.batch == batch
    case SendPrepare(d) => entry.PersistQ? && entry.digest == d
    case SendCommit(d) => entry == PersistP(d)
    case _ => false
  }

  /** In `out`, every message comes after the log entry it depends on. */
  ghost predicate PersistsFirst(out: seq<Action>) {
    forall i :: 0 <= i < |out| && IsSend(out[i]) ==> exists j :: 0 <= j < i && Supports(out[j], out[i])
  }

  lemma PersistsFirstConcat(a: seq<Action>, b: seq<Action>)
    requires PersistsFirst(a) && PersistsFirst(b)
    ensures PersistsFirst(a + b)
  {
    var out := a + b;
    forall i | 0 <= i < |out| && IsSend(out[i]) ensures exists j :: 0 <= j < i && Supports(out[j], out[i]) {
      if i < |a| {
        var j :| 0 <= j < i && Supports(a[j], a[i]);
        assert Supports(out[j], out[i]);
      } else {
        assert out[i] == b[i - |a|];
        var j :| 0 <= j < i - |a| && Supports(b[j], b[i - |a|]);
        assert Supports(out[j + |a|], out[i]);
      }
    }
  }

  lemma {:induction false} AdvancePersistsFirst(s: SeqState)
    ensures PersistsFirst(Advance(s).1)
    decreases 6 - Rank(s.phase)
  {
    var (next, out) := Pass(s);
    if next.phase != s.phase {
      AdvancePersistsFirst(next);
      PassThenAdvance(s);
      assert |out| == 2 ==> Supports(out[0], out[1]);
      PersistsFirstConcat(out, Advance(next).1);
    }
  }

  /** Whatever a sequence is asked to do, its action list never has a message before its log entry. */
  lemma OperationsPersistFirst(s: SeqState, source: NodeId, d: Digest, batch: seq<RequestAck>, requests: set<nat>,
                               r: nat)
    ensures PersistsFirst(ApplyPrepare(s, source, d).1) && PersistsFirst(ApplyCommit(s, source, d).1)
    ensures PersistsFirst(ApplyHash(s, d).1)
    ensures s.phase == Uninitialized ==> PersistsFirst(Allocate(s, batch, requests).1)
    ensures r in s.outstanding ==> PersistsFirst(Satisfy(s, r).1)
  {
    hide Advance;
    forall s ensures PersistsFirst(Advance(s).1) {
      AdvancePersistsFirst(s);
    }
    if s.phase == Uninitialized && batch != [] {
      PersistsFirstConcat([Hash(batch)], Advance(s.(batch := batch, outstanding := requests, phase := PendingRequests)).1);
    }
  }
}
