/** Acknowledgements of one client request number: which digests are correct, which are strong, and why
    correct replicas never hold two different non-null strong ones. */
module RequestAcks {
  import opened Types
  import opened Quorums

  /** A client may have sent several requests under one number; the null request replaces them then. */
  datatype RequestDigest = NullRequest | Request(id: nat)

  type Agreements = map<RequestDigest, set<NodeId>>

  datatype ReqNo = ReqNo(
    agreements: Agreements,          // who acknowledged what
    weak: set<RequestDigest>,
    strong: set<RequestDigest>,
    mine: set<RequestDigest>,        // requests persisted here
    sent: bool,                      // some acknowledgement was sent
    acked: set<RequestDigest>)       // all that were sent

  function Fresh(): ReqNo {
    ReqNo(map[], {}, {}, {}, false, {})
  }

  function Ackers(a: Agreements, d: RequestDigest): set<NodeId> {
    if d in a then a[d] else {}
  }

  /** The weak and strong digests are exactly those with f+1 and with a quorum of distinct ackers. */
  ghost predicate Exact(c: NetworkConfig, r: ReqNo) {
    && (forall d :: d in r.weak <==> |Ackers(r.agreements, d)| >= SomeCorrectQuorum(c))
    && (forall d :: d in r.strong <==> |Ackers(r.agreements, d)| >= IntersectionQuorum(c))
  }

  // ---------------------------------------------------------------- operations

  function Acked(c: NetworkConfig, r: ReqNo, source: NodeId, d: RequestDigest): ReqNo {
    var ackers := Ackers(r.agreements, d) + {source};
    r.(agreements := r.agreements[d := ackers],
       weak := if |ackers| == SomeCorrectQuorum(c) then r.weak + {d} else r.weak,
       strong := if |ackers| == IntersectionQuorum(c) then r.strong + {d} else r.strong)
  }

  function Known(a: Agreements, d: RequestDigest): Agreements {
    if d in a then a else a[d := {}]
  }

  /** A request was persisted.  Only the first one is acknowledged; with the null request among several,
      that one is again. */
  function Persisted(r: ReqNo, d: RequestDigest): ReqNo {
    if d in r.mine then r
    else
      var mine := r.mine + {d};
      var r' := r.(agreements := Known(r.agreements, d), mine := mine);
      if |mine| == 1 then r'.(sent := true, acked := r.acked + {d})
      else if NullRequest !in mine then r'
      else r'.(agreements := Known(r'.agreements, NullRequest), sent := true, acked := r.acked + {NullRequest})
  }

  /** The first part of a tick: two correct requests bring in the null request. */
  function Promoted(r: ReqNo): ReqNo {
    if NullRequest in r.mine || |r.weak| <= 1 then r
    else r.(agreements := Known(r.agreements, NullRequest), mine := r.mine + {NullRequest}, sent := true,
            acked := r.acked + {NullRequest})
  }

  /** The last part of a tick, when it is time to acknowledge again; none where the source would read a
      null request that is not there, or no request at all. */
  function Resent(r: ReqNo): Option<ReqNo> {
    if !r.sent then Some(r)
    else if |r.mine| == 0 then None
    else if |r.mine| == 1 then Some(r.(acked := r.acked + r.mine))
    else if NullRequest in r.mine then Some(r.(acked := r.acked + {NullRequest}))
    else None
  }

  /** The acknowledgements of configured nodes, and only those, are counted again. */
  ghost predicate IsRecount(c: NetworkConfig, r: ReqNo, r': ReqNo) {
    && Exact(c, r') && r'.mine == r.mine && r'.sent == r.sent && r'.acked == r.acked
    && forall d :: Ackers(r'.agreements, d) == Ackers(r.agreements, d) * NodeSet(c)
  }

  function Reapplied(c: NetworkConfig, r: ReqNo, source: NodeId, d: RequestDigest): ReqNo {
    var ackers := Ackers(r.agreements, d) + {source};
    r.(agreements := r.agreements[d := ackers],
       weak := if |ackers| >= SomeCorrectQuorum(c) then r.weak + {d} else r.weak,
       strong := if |ackers| >= SomeCorrectQuorum(c) && |ackers| >= IntersectionQuorum(c) then r.strong + {d} else r.strong)
  }

  function Recounted(c: NetworkConfig, r: ReqNo, d: RequestDigest, ackers: set<NodeId>): ReqNo {
    if ackers == {} then r
    else r.(agreements := r.agreements[d := ackers],
            weak := if |ackers| >= SomeCorrectQuorum(c) then r.weak + {d} else r.weak,
            strong := if |ackers| >= IntersectionQuorum(c) then r.strong + {d} else r.strong)
  }

  lemma AllPicked(c: NetworkConfig)
    ensures Picked(c.nodes, 0, |c.nodes|) == NodeSet(c) && Picked(c.nodes, 0, 0) == {}
  {
  }

  lemma RecountNothing(c: NetworkConfig, r: ReqNo, d: RequestDigest)
    ensures Recounted(c, r, d, {}) == r
  {
  }

  lemma RecountStep(c: NetworkConfig, r: ReqNo, d: RequestDigest, ackers: set<NodeId>, source: NodeId)
    requires c.Valid() && d !in r.agreements && d !in r.weak && d !in r.strong
    ensures Reapplied(c, Recounted(c, r, d, ackers), source, d) == Recounted(c, r, d, ackers + {source})
  {
    SubsetSize(ackers, ackers + {source});
    assert r.weak + {d} + {d} == r.weak + {d} && r.strong + {d} + {d} == r.strong + {d};
    if ackers == {} {
      assert {source} == ackers + {source};
    } else {
      assert Ackers(Recounted(c, r, d, ackers).agreements, d) == ackers;
    }
  }

  // ---------------------------------------------------------------- exactness

  lemma AckedExact(c: NetworkConfig, r: ReqNo, source: NodeId, d: RequestDigest)
    requires c.Valid() && Exact(c, r)
    ensures Exact(c, Acked(c, r, source, d))
    ensures forall x :: Ackers(Acked(c, r, source, d).agreements, x) ==
                        Ackers(r.agreements, x) + if x == d then {source} else {}
  {
    var before, after := Ackers(r.agreements, d), Ackers(r.agreements, d) + {source};
    var r' := Acked(c, r, source, d);
    assert |before| <= |after| <= |before| + 1 by {
      if source in before {
        assert after == before;
      }
    }
    forall x ensures Ackers(r'.agreements, x) == if x == d then after else Ackers(r.agreements, x) {
    }
  }

  lemma KnownKeepsAckers(a: Agreements, d: RequestDigest, x: RequestDigest)
    ensures Ackers(Known(a, d), x) == Ackers(a, x)
  {
  }

  lemma SameAckersExact(c: NetworkConfig, r: ReqNo, r': ReqNo)
    requires Exact(c, r) && r'.weak == r.weak && r'.strong == r.strong
    requires forall d :: Ackers(r'.agreements, d) == Ackers(r.agreements, d)
    ensures Exact(c, r')
  {
  }

  lemma RecountedExact(c: NetworkConfig, r: ReqNo, d: RequestDigest, ackers: set<NodeId>)
    requires c.Valid() && Exact(c, r) && Ackers(r.agreements, d) == {}
    ensures Exact(c, Recounted(c, r, d, ackers))
    ensures forall x :: Ackers(Recounted(c, r, d, ackers).agreements, x) ==
                        if x == d then ackers else Ackers(r.agreements, x)
  {
    var r' := Recounted(c, r, d, ackers);
    forall x ensures Ackers(r'.agreements, x) == if x == d then ackers else Ackers(r.agreements, x) {
    }
  }

  // ---------------------------------------------------------------- what a correct replica acknowledges

  /** A correct replica acknowledges at most one non-null request, and it has persisted it; it has
      acknowledged something as soon as it has persisted anything. */
  ghost predicate OneVoice(r: ReqNo) {
    && r.acked <= r.mine
    && (r.sent <==> r.mine != {})
    && (forall d1, d2 :: d1 in r.acked && d2 in r.acked && d1.Request? && d2.Request? ==> d1 == d2)
  }

  /** Persisting a request adds it to those persisted here and acknowledges nothing in another's name. */
  lemma PersistedMeans(r: ReqNo, d: RequestDigest)
    ensures
      var r' := Persisted(r, d);
      && r'.mine == r.mine + {d} && r'.weak == r.weak && r'.strong == r.strong
      && forall x :: Ackers(r'.agreements, x) == Ackers(r.agreements, x)
  {
    forall x ensures Ackers(Persisted(r, d).agreements, x) == Ackers(r.agreements, x) {
      KnownKeepsAckers(r.agreements, d, x);
      KnownKeepsAckers(Known(r.agreements, d), NullRequest, x);
    }
  }

  lemma PersistedOneVoice(r: ReqNo, d: RequestDigest)
    requires OneVoice(r)
    ensures OneVoice(Persisted(r, d)) && r.acked <= Persisted(r, d).acked
  {
    if d !in r.mine && |r.mine + {d}| == 1 {
      assert r.mine == {};
      assert r.acked == {};
    }
  }

  lemma ResentOneVoice(r: ReqNo)
    requires OneVoice(r) && Resent(r).Some?
    ensures OneVoice(Resent(r).value) && r.acked <= Resent(r).value.acked
  {
    if |r.mine| == 1 {
      var d :| d in r.mine;
      assert |r.mine - {d}| == 0;
      assert r.mine == {d};
    }
  }

  lemma FirstIsOnly(mine: set<RequestDigest>, d: RequestDigest)
    requires d !in mine
    ensures |mine + {d}| == 1 <==> mine == {}
  {
    assert |mine + {d}| == |mine| + 1;
  }

  class ClientReqNo {
    const c: NetworkConfig
    var agreements: Agreements
    var weak: set<RequestDigest>
    var strong: set<RequestDigest>
    var mine: set<RequestDigest>
    var sent: bool
    ghost var acked: set<RequestDigest>

    ghost function View(): ReqNo
      reads this
    {
      ReqNo(agreements, weak, strong, mine, sent, acked)
    }

    constructor (c: NetworkConfig)
      ensures View() == Fresh() && this.c == c
    {
      this.c := c;
      agreements, weak, strong, mine, sent, acked := map[], {}, {}, {}, false, {};
    }

    method Ack(source: NodeId, d: RequestDigest)
      modifies this`agreements, this`weak, this`strong
      ensures View() == Acked(c, old(View()), source, d)
    {
      var ackers := (if d in agreements then agreements[d] else {}) + {source};
      agreements := agreements[d := ackers];
      if |ackers| == SomeCorrectQuorum(c) {
        weak := weak + {d};
      }
      if |ackers| == IntersectionQuorum(c) {
        strong := strong + {d};
      }
    }

    method ApplyNewRequest(d: RequestDigest) returns (ack: Option<RequestDigest>)
      modifies this`agreements, this`mine, this`sent, this`acked
      ensures View() == Persisted(old(View()), d)
      ensures ack == if d in old(mine) then None
                     else if old(mine) == {} then Some(d)
                     else if NullRequest in mine then Some(NullRequest)
                     else None
      ensures acked == old(acked) + if ack.Some? then {ack.value} else {}
      ensures mine == old(mine) + {d}
    {
      hide Known;
      if d in mine {
        assert mine + {d} == mine;
        return None;
      }
      FirstIsOnly(mine, d);
      agreements := Known(agreements, d);
      mine := mine + {d};
      if |mine| == 1 {
        sent := true;
        acked := acked + {d};
        return Some(d);
      }
      if NullRequest !in mine {
        return None;
      }
      agreements := Known(agreements, NullRequest);
      sent := true;
      acked := acked + {NullRequest};
      ack := Some(NullRequest);
    }

    /** The first part of a tick. */
    method PromoteNull() returns (promoted: bool)
      modifies this`agreements, this`mine, this`sent, this`acked
      ensures View() == Promoted(old(View()))
      ensures promoted <==> NullRequest !in old(mine) && |weak| > 1
      ensures acked == old(acked) + if promoted then {NullRequest} else {}
      ensures mine == old(mine) + if promoted then {NullRequest} else {}
    {
      promoted := NullRequest !in mine && |weak| > 1;
      if promoted {
        agreements := if NullRequest in agreements then agreements else agreements[NullRequest := {}];
        mine := mine + {NullRequest};
        sent := true;
        acked := acked + {NullRequest};
      }
    }

    /** The last part of a tick, when it is time to acknowledge again. */
    method ResendAck() returns (ack: Option<RequestDigest>)
      requires Resent(View()).Some?
      modifies this`acked
      ensures View() == Resent(old(View())).value
      ensures ack.Some? <==> sent
      ensures ack.Some? ==> if |mine| > 1 then ack.value == NullRequest else mine == {ack.value}
      ensures acked == old(acked) + if ack.Some? then {ack.value} else {}
    {
      if !sent {
        return None;
      }
      if |mine| > 1 {
        ack := Some(NullRequest);
        acked := acked + {NullRequest};
      } else {
        var d :| d in mine;
        assert |mine - {d}| == 0;
        assert mine == {d};
        ack := Some(d);
        acked := acked + {d};
      }
    }

    /** Applies an old acknowledgement once more, testing for at least the two thresholds. */
    method ApplyRequestAck(source: NodeId, d: RequestDigest)
      modifies this`agreements, this`weak, this`strong
      ensures View() == Reapplied(c, old(View()), source, d)
    {
      var ackers := (if d in agreements then agreements[d] else {}) + {source};
      agreements := agreements[d := ackers];
      if |ackers| < SomeCorrectQuorum(c) {
        return;
      }
      weak := weak + {d};
      if |ackers| < IntersectionQuorum(c) {
        return;
      }
      strong := strong + {d};
    }

    /** Recounts one digest over the configured nodes. */
    method Recount(d: RequestDigest, ackers: set<NodeId>)
      requires c.Valid() && d !in agreements && d !in weak && d !in strong
      modifies this`agreements, this`weak, this`strong
      ensures View() == Recounted(c, old(View()), d, ackers * NodeSet(c))
    {
      hide Recounted;
      hide Reapplied;
      hide Picked;
      hide NodeSet;
      ghost var kept: set<NodeId> := {};
      RecountNothing(c, View(), d);
      AllPicked(c);
      for i := 0 to |c.nodes|
        invariant kept == ackers * Picked(c.nodes, 0, i)
        invariant View() == Recounted(c, old(View()), d, kept)
      {
        var id := c.nodes[i];
        PickedStep(c.nodes, i);
        if id in ackers {
          RecountStep(c, old(View()), d, kept, id);
          ApplyRequestAck(id, d);
          kept := kept + {id};
        }
      }
    }

    /** Recounts a digest and keeps it if it is persisted. */
    method RecountOld(d: RequestDigest, ackers: set<NodeId>)
      requires c.Valid() && Exact(c, View()) && d !in agreements
      modifies this`agreements, this`weak, this`strong
      ensures Exact(c, View()) && agreements.Keys <= old(agreements).Keys + {d}
      ensures forall x :: Ackers(agreements, x) == if x == d then ackers * NodeSet(c) else Ackers(old(agreements), x)
    {
      RecountedExact(c, View(), d, ackers * NodeSet(c));
      assert d !in weak && d !in strong by {
        assert Ackers(agreements, d) == {};
      }
      Recount(d, ackers);
      if d in mine && d !in agreements {
        ghost var before := View();
        agreements := agreements[d := {}];
        SameAckersExact(c, before, View());
      }
    }

    /** Forgets everything but who acknowledged what and what is persisted, and counts again. */
    method Reinitialize()
      requires c.Valid()
      modifies this`agreements, this`weak, this`strong
      ensures IsRecount(c, old(View()), View())
    {
      hide Exact;
      var oldRequests := agreements;
      NoneExact(c, View());
      agreements, weak, strong := map[], {}, {};
      var todo := oldRequests.Keys;
      while todo != {}
        invariant todo <= oldRequests.Keys && Exact(c, View())
        invariant mine == old(mine) && sent == old(sent) && acked == old(acked)
        invariant Recorded(c, oldRequests, agreements, todo)
        decreases |todo|
      {
        hide Recorded;
        var d :| d in todo;
        ghost var before := agreements;
        StillToRecord(c, oldRequests, agreements, todo, d);
        RecountOld(d, oldRequests[d]);
        RecordedStep(c, oldRequests, before, agreements, todo, d);
        todo := todo - {d};
      }
    }
  }

  /** All but the digests in `todo` have been recounted. */
  ghost predicate Recorded(c: NetworkConfig, oldRequests: Agreements, a: Agreements, todo: set<RequestDigest>) {
    && (forall d :: d in todo ==> d !in a)
    && (forall d :: d !in todo ==> Ackers(a, d) == Ackers(oldRequests, d) * NodeSet(c))
  }

  lemma StillToRecord(c: NetworkConfig, oldRequests: Agreements, a: Agreements, todo: set<RequestDigest>,
                      d: RequestDigest)
    requires Recorded(c, oldRequests, a, todo) && d in todo
    ensures d !in a
  {
  }

  lemma RecordedStep(c: NetworkConfig, oldRequests: Agreements, a: Agreements, a': Agreements,
                     todo: set<RequestDigest>, d: RequestDigest)
    requires Recorded(c, oldRequests, a, todo) && d in todo && d in oldRequests && a'.Keys <= a.Keys + {d}
    requires forall x :: Ackers(a', x) == if x == d then oldRequests[d] * NodeSet(c) else Ackers(a, x)
    ensures Recorded(c, oldRequests, a', todo - {d})
  {
    forall x | x !in todo - {d} ensures Ackers(a', x) == Ackers(oldRequests, x) * NodeSet(c) {
      assert x == d || x !in todo;
    }
  }

  lemma NoneExact(c: NetworkConfig, r: ReqNo)
    requires c.Valid()
    ensures Exact(c, r.(agreements := map[], weak := {}, strong := {}))
    ensures forall d :: d !in r.agreements ==> Ackers(map[], d) == Ackers(r.agreements, d) * NodeSet(c)
  {
  }

  lemma PickedStep(nodes: seq<NodeId>, i: nat)
    requires i < |nodes|
    ensures Picked(nodes, 0, i + 1) == Picked(nodes, 0, i) + {nodes[i]}
  {
  }

  // ---------------------------------------------------------------- all runs

  type Network = map<NodeId, ReqNo>

  datatype Step = Persist(d: RequestDigest) | GotAck(source: NodeId, d: RequestDigest) | Promote | Resend | Reinit

  ghost predicate Moves(c: NetworkConfig, faulty: set<NodeId>, g: Network, i: NodeId, step: Step, r': ReqNo)
    requires i in g
  {
    match step
    case Persist(d) => r' == Persisted(g[i], d)
    case GotAck(source, d) =>
      && source in NodeSet(c) && (source !in faulty ==> source in g && d in g[source].acked)
      && r' == Acked(c, g[i], source, d)
    case Promote => r' == Promoted(g[i])
    case Resend => Resent(g[i]) == Some(r')
    case Reinit => IsRecount(c, g[i], r')
  }

  ghost predicate Next(c: NetworkConfig, faulty: set<NodeId>, g: Network, g': Network) {
    exists i, step, r' :: i in g && Moves(c, faulty, g, i, step, r') && g' == g[i := r']
  }

  ghost predicate IsRun(c: NetworkConfig, faulty: set<NodeId>, run: seq<Network>) {
    && FaultBound(c, faulty) && run != [] && run[0].Keys == NodeSet(c) - faulty
    && (forall i :: i in run[0] ==> run[0][i] == Fresh())
    && forall t :: 0 < t < |run| ==> Next(c, faulty, run[t - 1], run[t])
  }

  /** Acknowledgements recorded from correct nodes were sent by them. */
  ghost predicate Truthful(c: NetworkConfig, faulty: set<NodeId>, g: Network, a: Agreements) {
    forall d, n :: n in Ackers(a, d) ==> n in NodeSet(c) && (n !in faulty ==> n in g && d in g[n].acked)
  }

  ghost predicate Inv(c: NetworkConfig, faulty: set<NodeId>, g: Network) {
    && g.Keys == NodeSet(c) - faulty
    && (forall i :: i in g ==> Exact(c, g[i]))
    && (forall i :: i in g ==> OneVoice(g[i]))
    && (forall i :: i in g ==> Truthful(c, faulty, g, g[i].agreements))
  }

  lemma MovesKeepExact(c: NetworkConfig, faulty: set<NodeId>, g: Network, i: NodeId, step: Step, r': ReqNo)
    requires c.Valid() && i in g && Exact(c, g[i]) && Moves(c, faulty, g, i, step, r')
    ensures Exact(c, r')
  {
    match step {
      case Persist(d) => SameAckersExact(c, g[i], r');
      case GotAck(source, d) => AckedExact(c, g[i], source, d);
      case Promote => SameAckersExact(c, g[i], r');
      case Resend => SameAckersExact(c, g[i], r');
      case Reinit =>
    }
  }

  lemma PromotedOneVoice(r: ReqNo)
    requires OneVoice(r)
    ensures OneVoice(Promoted(r)) && r.acked <= Promoted(r).acked
  {
  }

  lemma MovesKeepOneVoice(c: NetworkConfig, faulty: set<NodeId>, g: Network, i: NodeId, step: Step, r': ReqNo)
    requires i in g && OneVoice(g[i]) && Moves(c, faulty, g, i, step, r')
    ensures OneVoice(r') && g[i].acked <= r'.acked
  {
    hide Exact;
    hide Ackers;
    match step {
      case Persist(d) =>
        PersistedOneVoice(g[i], d);
        hide Persisted;
        hide OneVoice;
      case GotAck(source, d) =>
      case Promote =>
        PromotedOneVoice(g[i]);
        hide Promoted;
        hide OneVoice;
      case Resend =>
        ResentOneVoice(g[i]);
        hide OneVoice;
      case Reinit =>
    }
  }

  lemma MovesAckers(c: NetworkConfig, faulty: set<NodeId>, g: Network, i: NodeId, step: Step, r': ReqNo,
                    d: RequestDigest, n: NodeId)
    requires i in g && Moves(c, faulty, g, i, step, r') && n in Ackers(r'.agreements, d)
    ensures n in Ackers(g[i].agreements, d) || step == GotAck(n, d)
  {
    hide Exact;
    match step {
      case Persist(x) =>
        KnownKeepsAckers(g[i].agreements, x, d);
        KnownKeepsAckers(Known(g[i].agreements, x), NullRequest, d);
      case GotAck(source, x) =>
      case Promote => KnownKeepsAckers(g[i].agreements, NullRequest, d);
      case Resend =>
      case Reinit =>
    }
  }

  lemma MovesKeepTruthful(c: NetworkConfig, faulty: set<NodeId>, g: Network, i: NodeId, step: Step, r': ReqNo)
    requires i in g && Truthful(c, faulty, g, g[i].agreements) && Moves(c, faulty, g, i, step, r')
    ensures Truthful(c, faulty, g, r'.agreements)
  {
    hide Exact;
    hide Persisted;
    hide Acked;
    hide Promoted;
    hide Resent;
    hide IsRecount;
    hide Ackers;
    forall d, n | n in Ackers(r'.agreements, d) ensures n in NodeSet(c) && (n !in faulty ==> n in g && d in g[n].acked) {
      MovesAckers(c, faulty, g, i, step, r', d, n);
    }
  }

  lemma TruthfulPersists(c: NetworkConfig, faulty: set<NodeId>, g: Network, g': Network, a: Agreements)
    requires Truthful(c, faulty, g, a) && g.Keys == g'.Keys && forall i :: i in g ==> g[i].acked <= g'[i].acked
    ensures Truthful(c, faulty, g', a)
  {
    hide Ackers;
  }

  /** Every step keeps the invariant of the network. */
  lemma NextKeepsInv(c: NetworkConfig, faulty: set<NodeId>, g: Network, g': Network)
    requires FaultBound(c, faulty) && Inv(c, faulty, g) && Next(c, faulty, g, g')
    ensures Inv(c, faulty, g')
  {
    hide Moves;
    hide Exact;
    hide OneVoice;
    hide Truthful;
    var i, step, r' :| i in g && Moves(c, faulty, g, i, step, r') && g' == g[i := r'];
    MovesKeepExact(c, faulty, g, i, step, r');
    MovesKeepOneVoice(c, faulty, g, i, step, r');
    MovesKeepTruthful(c, faulty, g, i, step, r');
    forall j | j in g' ensures Truthful(c, faulty, g', g'[j].agreements) {
      TruthfulPersists(c, faulty, g, g', g'[j].agreements);
    }
  }

  lemma {:induction false} RunKeepsInv(c: NetworkConfig, faulty: set<NodeId>, run: seq<Network>, t: nat)
    requires IsRun(c, faulty, run) && t < |run|
    ensures Inv(c, faulty, run[t])
  {
    if t > 0 {
      RunKeepsInv(c, faulty, run, t - 1);
      NextKeepsInv(c, faulty, run[t - 1], run[t]);
    }
  }

  lemma StrongIsQuorum(c: NetworkConfig, faulty: set<NodeId>, g: Network, i: NodeId, d: RequestDigest)
    requires Inv(c, faulty, g) && i in g && d in g[i].strong
    ensures IsQuorum(c, Ackers(g[i].agreements, d))
    ensures forall n :: n in Ackers(g[i].agreements, d) && n !in faulty ==> n in g && d in g[n].acked
  {
    assert Exact(c, g[i]) && Truthful(c, faulty, g, g[i].agreements);
  }

  /** Over every run, whatever non-null digests two correct replicas hold as strong for the request number
      are the same. */
  lemma StrongAgree(c: NetworkConfig, faulty: set<NodeId>, run: seq<Network>, t: nat,
                    i: NodeId, j: NodeId, d1: RequestDigest, d2: RequestDigest)
    requires IsRun(c, faulty, run) && t < |run| && i in run[t] && j in run[t]
    requires d1 in run[t][i].strong && d2 in run[t][j].strong && d1.Request? && d2.Request?
    ensures d1 == d2
  {
    RunKeepsInv(c, faulty, run, t);
    var g := run[t];
    StrongIsQuorum(c, faulty, g, i, d1);
    StrongIsQuorum(c, faulty, g, j, d2);
    var n := SharedCorrect(c, faulty, Ackers(g[i].agreements, d1), Ackers(g[j].agreements, d2));
    assert OneVoice(g[n]);
  }

  /** So if several digests are strong one of them is the null request, as the proposer asserts. */
  lemma SeveralStrongIncludeNull(c: NetworkConfig, faulty: set<NodeId>, run: seq<Network>, t: nat, i: NodeId)
    requires IsRun(c, faulty, run) && t < |run| && i in run[t] && |run[t][i].strong| > 1
    ensures NullRequest in run[t][i].strong
  {
    var strong := run[t][i].strong;
    var d :| d in strong;
    assert |strong - {d}| > 0;
    var d' :| d' in strong - {d};
    if d.Request? && d'.Request? {
      StrongAgree(c, faulty, run, t, i, i, d, d');
    }
  }

  /** In every state of every run, a tick that is due to acknowledge again fails exactly when two or more
      requests are persisted and the null request is not one of them. */
  lemma ResendFailsIff(c: NetworkConfig, faulty: set<NodeId>, run: seq<Network>, t: nat, i: NodeId)
    requires IsRun(c, faulty, run) && t < |run| && i in run[t]
    ensures Resent(run[t][i]).None? <==> NullRequest !in run[t][i].mine && |run[t][i].mine| > 1
  {
    hide IsRun;
    hide Exact;
    hide Truthful;
    RunKeepsInv(c, faulty, run, t);
    assert OneVoice(run[t][i]);
  }

  function FreshNetwork(c: NetworkConfig, faulty: set<NodeId>): Network {
    map n | n in NodeSet(c) - faulty :: Fresh()
  }

  /** And that does happen at every correct replica: once it has persisted two requests of a client under one
      number, before it has seen the second acknowledged. */
  lemma ResendMayFail(c: NetworkConfig, faulty: set<NodeId>, i: NodeId, d1: RequestDigest, d2: RequestDigest)
    returns (run: seq<Network>)
    requires FaultBound(c, faulty) && i in NodeSet(c) - faulty && d1.Request? && d2.Request? && d1 != d2
    ensures IsRun(c, faulty, run) && i in run[|run| - 1] && Resent(run[|run| - 1][i]).None?
  {
    hide FaultBound;
    var g0 := FreshNetwork(c, faulty);
    var r1 := Persisted(Fresh(), d1);
    var r2 := Persisted(r1, d2);
    var g1 := g0[i := r1];
    var g2 := g1[i := r2];
    assert r1.mine == {d1} && r2.mine == {d1, d2};
    assert Moves(c, faulty, g0, i, Persist(d1), r1) && Moves(c, faulty, g1, i, Persist(d2), r2);
    run := [g0, g1, g2];
    assert Next(c, faulty, run[0], run[1]) && Next(c, faulty, run[1], run[2]);
    assert |{d1, d2}| == 2;
    hide Persisted;
    hide NodeSet;
  }
}
