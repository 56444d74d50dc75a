/** Epoch-change acknowledgements, the leader's NewEpoch message and its verification at followers. */
module NewEpochVerification {
  import opened Types
  import opened Quorums
  import opened EpochChanges
  import opened NewEpochConfigs

  /** One parsed epoch change and the nodes that acknowledged it. */
  datatype Received = Received(parsed: ParsedEpochChange, acks: set<NodeId>)

  /** What one originator is said to have sent.  A message stands for its own digest. */
  datatype Tracked = Tracked(received: map<EpochChange, Received>, strongCert: Option<EpochChange>)

  /** The epoch-change side of an epoch target. */
  datatype Seen = Seen(changes: map<NodeId, Tracked>, strongChanges: Changes)

  datatype Ack = Ack(source: NodeId, origin: NodeId, change: EpochChange)

  datatype Reference = Reference(node: NodeId, change: EpochChange)

  datatype NewEpoch = NewEpoch(config: NewEpochConfig, references: seq<Reference>)

  // ---------------------------------------------------------------- acknowledgements

  function ReceivedAfter(t: Tracked, source: NodeId, m: EpochChange): Received
    requires m in t.received || m.checkpoints != []
  {
    if m in t.received then t.received[m].(acks := t.received[m].acks + {source}) else Received(Parsed(m), {source})
  }

  ghost function Added(c: NetworkConfig, t: Tracked, source: NodeId, m: EpochChange): Tracked {
    if m !in t.received && !Parseable(m) then t
    else
      var r := ReceivedAfter(t, source, m);
      Tracked(t.received[m := r],
              if t.strongCert.None? && |r.acks| >= IntersectionQuorum(c) then Some(m) else t.strongCert)
  }

  function TrackedFor(seen: Seen, origin: NodeId): Tracked {
    if origin in seen.changes then seen.changes[origin] else Tracked(map[], None)
  }

  ghost function Applied(c: NetworkConfig, seen: Seen, ack: Ack): Seen {
    var t := Added(c, TrackedFor(seen, ack.origin), ack.source, ack.change);
    Seen(seen.changes[ack.origin := t],
         if t.strongCert.Some? && t.strongCert.value in t.received && ack.origin !in seen.strongChanges
         then seen.strongChanges[ack.origin := t.received[t.strongCert.value].parsed]
         else seen.strongChanges)
  }

  ghost function SeenAfter(c: NetworkConfig, acks: seq<Ack>): Seen {
    if acks == [] then Seen(map[], map[]) else Applied(c, SeenAfter(c, Init(acks)), Last(acks))
  }

  function Ackers(acks: seq<Ack>, origin: NodeId, m: EpochChange): set<NodeId> {
    set i | 0 <= i < |acks| && acks[i].origin == origin && acks[i].change == m :: acks[i].source
  }

  /** The table holds exactly the parseable messages that were acknowledged, each with exactly the
      distinct nodes that acknowledged it; an originator's change is strong once some message of its
      has a quorum of them. */
  ghost predicate Exact(c: NetworkConfig, acks: seq<Ack>, origin: NodeId, t: Tracked) {
    && (forall m :: EntryExact(acks, origin, t, m))
    && StrongCertExact(c, t)
  }

  ghost predicate EntryExact(acks: seq<Ack>, origin: NodeId, t: Tracked, m: EpochChange) {
    if Parseable(m) && Ackers(acks, origin, m) != {}
    then m in t.received && t.received[m] == Received(Parsed(m), Ackers(acks, origin, m))
    else m !in t.received
  }

  ghost predicate StrongCertExact(c: NetworkConfig, t: Tracked) {
    if t.strongCert.Some?
    then t.strongCert.value in t.received && |t.received[t.strongCert.value].acks| >= IntersectionQuorum(c)
    else forall m :: m in t.received ==> |t.received[m].acks| < IntersectionQuorum(c)
  }

  ghost predicate StrongExact(seen: Seen, origin: NodeId) {
    var t := TrackedFor(seen, origin);
    && (origin in seen.strongChanges <==> t.strongCert.Some?)
    && (t.strongCert.Some? ==> t.strongCert.value in t.received
                               && origin in seen.strongChanges
                               && seen.strongChanges[origin] == t.received[t.strongCert.value].parsed)
  }

  lemma AppliedStrongExact(c: NetworkConfig, seen: Seen, ack: Ack)
    requires forall o :: StrongExact(seen, o)
    ensures forall o :: StrongExact(Applied(c, seen, ack), o)
  {
    forall o ensures StrongExact(Applied(c, seen, ack), o) {
      assert StrongExact(seen, o);
    }
  }

  lemma AckersStep(acks: seq<Ack>, origin: NodeId, m: EpochChange)
    requires acks != []
    ensures
      var last := Last(acks);
      Ackers(acks, origin, m) ==
      Ackers(Init(acks), origin, m) + if last.origin == origin && last.change == m then {last.source} else {}
  {
    var init, last := Init(acks), Last(acks);
    assert acks == init + [last];
    forall n | n in Ackers(acks, origin, m)
      ensures n in Ackers(init, origin, m) || (last.origin == origin && last.change == m && n == last.source)
    {
      var i :| 0 <= i < |acks| && acks[i].origin == origin && acks[i].change == m && acks[i].source == n;
      assert i < |init| ==> init[i] == acks[i];
    }
    forall n | n in Ackers(init, origin, m) ensures n in Ackers(acks, origin, m) {
      var i :| 0 <= i < |init| && init[i].origin == origin && init[i].change == m && init[i].source == n;
      assert acks[i] == init[i];
    }
  }

  lemma AddedEntryExact(c: NetworkConfig, acks: seq<Ack>, t: Tracked, m: EpochChange)
    requires acks != [] && EntryExact(Init(acks), Last(acks).origin, t, m)
    ensures EntryExact(acks, Last(acks).origin, Added(c, t, Last(acks).source, Last(acks).change), m)
  {
    hide Ackers;
    AckersStep(acks, Last(acks).origin, m);
    if m == Last(acks).change {
      assert Last(acks).source in Ackers(acks, Last(acks).origin, m);
    }
  }

  lemma AddedStrongCertExact(c: NetworkConfig, t: Tracked, source: NodeId, m: EpochChange)
    requires StrongCertExact(c, t)
    ensures StrongCertExact(c, Added(c, t, source, m))
  {
    if m in t.received {
      SubsetSize(t.received[m].acks, t.received[m].acks + {source});
    }
  }

  lemma AddedExact(c: NetworkConfig, acks: seq<Ack>, t: Tracked)
    requires acks != [] && Exact(c, Init(acks), Last(acks).origin, t)
    ensures Exact(c, acks, Last(acks).origin, Added(c, t, Last(acks).source, Last(acks).change))
  {
    hide EntryExact;
    hide Added;
    forall m ensures EntryExact(acks, Last(acks).origin, Added(c, t, Last(acks).source, Last(acks).change), m) {
      AddedEntryExact(c, acks, t, m);
    }
    AddedStrongCertExact(c, t, Last(acks).source, Last(acks).change);
  }

  /** After any sequence of acknowledgements the table is exact for every originator. */
  lemma {:induction false} SeenExact(c: NetworkConfig, acks: seq<Ack>, origin: NodeId)
    requires c.Valid()
    ensures Exact(c, acks, origin, TrackedFor(SeenAfter(c, acks), origin))
    ensures StrongExact(SeenAfter(c, acks), origin)
  {
    if acks != [] {
      var init, last := Init(acks), Last(acks);
      SeenExact(c, init, origin);
      if last.origin == origin {
        AddedExact(c, acks, TrackedFor(SeenAfter(c, init), origin));
      } else {
        forall m ensures EntryExact(acks, origin, TrackedFor(SeenAfter(c, acks), origin), m) {
          assert EntryExact(init, origin, TrackedFor(SeenAfter(c, init), origin), m);
          AckersStep(acks, origin, m);
        }
      }
    }
  }

  /** An originator's change is strong exactly when a quorum of distinct nodes acknowledged one of its
      parseable messages. */
  lemma StrongIff(c: NetworkConfig, acks: seq<Ack>, origin: NodeId)
    requires c.Valid()
    ensures origin in SeenAfter(c, acks).strongChanges <==>
            exists m :: Parseable(m) && |Ackers(acks, origin, m)| >= IntersectionQuorum(c)
  {
    SeenExact(c, acks, origin);
    var t := TrackedFor(SeenAfter(c, acks), origin);
    if t.strongCert.Some? {
      assert EntryExact(acks, origin, t, t.strongCert.value);
    }
    forall m | Parseable(m) && |Ackers(acks, origin, m)| >= IntersectionQuorum(c) ensures t.strongCert.Some? {
      assert EntryExact(acks, origin, t, m);
    }
  }

  // ---------------------------------------------------------------- the leader's message

  /** One reference per configured node with a strong change, in configuration order. */
  function References(nodes: seq<NodeId>, seen: Seen): seq<Reference> {
    if nodes == [] then []
    else
      var node := Last(nodes);
      References(Init(nodes), seen) +
      (if node in seen.strongChanges && TrackedFor(seen, node).strongCert.Some?
       then [Reference(node, TrackedFor(seen, node).strongCert.value)] else [])
  }

  datatype Built = Panic | Waiting | Proposal(msg: NewEpoch)

  function NewEpochOf(c: NetworkConfig, leaders: seq<NodeId>, seen: Seen, order: seq<Checkpoint>): Built {
    if |seen.strongChanges| < IntersectionQuorum(c) then Waiting
    else
      match OutcomeInOrder(c, leaders, seen.strongChanges, order)
      case Conflict => Panic
      case NotYet => Waiting
      case Chosen(config) => Proposal(NewEpoch(config, References(c.nodes, seen)))
  }

  // ---------------------------------------------------------------- verification

  predicate Holds(c: NetworkConfig, seen: Seen, r: Reference) {
    var t := TrackedFor(seen, r.node);
    r.change in t.received && |t.received[r.change].acks| >= SomeCorrectQuorum(c)
  }

  /** The epoch changes that a message refers to, or none if it repeats a node or if the follower does
      not hold one of them with enough acknowledgements. */
  function Resolved(c: NetworkConfig, seen: Seen, references: seq<Reference>): Option<Changes> {
    if references == [] then Some(map[])
    else
      var r := Last(references);
      match Resolved(c, seen, Init(references))
      case None => None
      case Some(changes) =>
        if r.node in changes || !Holds(c, seen, r) then None
        else Some(changes[r.node := TrackedFor(seen, r.node).received[r.change].parsed])
  }

  predicate Accepts(c: NetworkConfig, seen: Seen, msg: NewEpoch, order: seq<Checkpoint>) {
    var changes := Resolved(c, seen, msg.references);
    changes.Some? && OutcomeInOrder(c, msg.config.config.leaders, changes.value, order) == Chosen(msg.config)
  }

  // ---------------------------------------------------------------- what the two messages must hold

  predicate OncePerNode(references: seq<Reference>) {
    forall i, j :: 0 <= i < j < |references| ==> references[i].node != references[j].node
  }

  /** More than f distinct nodes acknowledged the change that is referred to. */
  predicate Vouched(c: NetworkConfig, seen: Seen, r: Reference) {
    var t := TrackedFor(seen, r.node);
    r.change in t.received && |t.received[r.change].acks| > c.f
  }

  ghost predicate ResolvesTo(seen: Seen, references: seq<Reference>, changes: Changes) {
    && (forall n :: n in changes ==> exists r :: r in references && r.node == n)
    && (forall r :: r in references && r.change in TrackedFor(seen, r.node).received ==>
                      && r.node in changes && changes[r.node] == TrackedFor(seen, r.node).received[r.change].parsed)
  }

  /** References resolve exactly if no node is referred to twice and every change is vouched for, and then to
      the changes that they name. */
  lemma {:induction false} ResolvedIff(c: NetworkConfig, seen: Seen, references: seq<Reference>)
    ensures Resolved(c, seen, references).Some? <==>
            OncePerNode(references) && forall r :: r in references ==> Vouched(c, seen, r)
    ensures Resolved(c, seen, references).Some? ==> ResolvesTo(seen, references, Resolved(c, seen, references).value)
  {
    if references != [] {
      var init, last := Init(references), Last(references);
      ResolvedIff(c, seen, init);
      assert references == init + [last];
      OnceMore(init, last);
      if Resolved(c, seen, init).Some? {
        var changes := Resolved(c, seen, init).value;
        assert last.node in changes <==> exists r :: r in init && r.node == last.node by {
          assert forall r :: r in init ==> Vouched(c, seen, r);
        }
        if last.node !in changes && Vouched(c, seen, last) {
          ResolvesFurther(seen, init, changes, last);
        }
      }
      hide ResolvesTo;
      hide OncePerNode;
    }
  }

  lemma ResolvesFurther(seen: Seen, init: seq<Reference>, changes: Changes, last: Reference)
    requires ResolvesTo(seen, init, changes) && last.change in TrackedFor(seen, last.node).received
    requires forall r :: r in init ==> r.node != last.node
    ensures ResolvesTo(seen, init + [last], changes[last.node := TrackedFor(seen, last.node).received[last.change].parsed])
  {
    var all := init + [last];
    var changes' := changes[last.node := TrackedFor(seen, last.node).received[last.change].parsed];
    forall n | n in changes' ensures exists r :: r in all && r.node == n {
      if n == last.node {
        assert last in all;
      } else {
        var r :| r in init && r.node == n;
        assert r in all;
      }
    }
  }

  lemma OnceMore(init: seq<Reference>, last: Reference)
    ensures OncePerNode(init + [last]) <==> OncePerNode(init) && forall r :: r in init ==> r.node != last.node
  {
    var all := init + [last];
    if OncePerNode(all) {
      forall r | r in init ensures r.node != last.node {
        var i :| 0 <= i < |init| && init[i] == r;
        assert all[i].node != all[|init|].node;
      }
      forall i, j | 0 <= i < j < |init| ensures init[i].node != init[j].node {
        assert all[i].node != all[j].node;
      }
    }
  }

  /** One reference for every configured node with a strong change, to that change. */
  ghost predicate RefersToStrong(nodes: seq<NodeId>, seen: Seen, references: seq<Reference>) {
    && (forall r :: r in references ==>
          r.node in nodes && r.node in seen.strongChanges && TrackedFor(seen, r.node).strongCert == Some(r.change))
    && (forall n :: n in nodes && n in seen.strongChanges && TrackedFor(seen, n).strongCert.Some? ==>
          exists r :: r in references && r.node == n)
  }

  lemma {:induction false} ReferencesExact(nodes: seq<NodeId>, seen: Seen)
    ensures RefersToStrong(nodes, seen, References(nodes, seen))
    ensures (forall i, j :: 0 <= i < j < |nodes| ==> nodes[i] != nodes[j]) ==> OncePerNode(References(nodes, seen))
  {
    if nodes != [] {
      var init, node := Init(nodes), Last(nodes);
      ReferencesExact(init, seen);
      assert nodes == init + [node];
      var before, all := References(init, seen), References(nodes, seen);
      if all != before {
        OnceMore(before, Last(all));
        assert all == before + [Last(all)];
        assert Last(all) in all && Last(all).node == node;
      }
      forall n | n in nodes && n in seen.strongChanges && TrackedFor(seen, n).strongCert.Some?
        ensures exists r :: r in all && r.node == n
      {
        if n in init {
          var r :| r in before && r.node == n;
          assert r in all;
        }
      }
    }
  }

  /** The epoch-change tables of an epoch target. */
  class ChangeTracker {
    const c: NetworkConfig
    var changes: map<NodeId, Tracked>
    var strongChanges: Changes

    constructor (c: NetworkConfig)
      ensures View() == Seen(map[], map[]) && this.c == c
    {
      this.c := c;
      changes, strongChanges := map[], map[];
    }

    ghost function View(): Seen
      reads this
    {
      Seen(changes, strongChanges)
    }

    ghost predicate Valid()
      reads this
    {
      forall o :: StrongExact(View(), o)
    }

    static method AddMsg(c: NetworkConfig, t: Tracked, source: NodeId, m: EpochChange) returns (r: Tracked)
      ensures r == Added(c, t, source, m)
    {
      var known: Received;
      if m in t.received {
        known := t.received[m];
      } else {
        var parsed := ParseEpochChange(m);
        if parsed.None? {
          return t;
        }
        known := Received(parsed.value, {});
        assert known.acks + {source} == {source};
      }
      known := known.(acks := known.acks + {source});
      assert known == ReceivedAfter(t, source, m);
      r := t.(received := t.received[m := known]);
      if r.strongCert.Some? || |known.acks| < IntersectionQuorum(c) {
        return;
      }
      r := r.(strongCert := Some(m));
    }

    method ApplyEpochChangeDigest(ack: Ack)
      requires Valid()
      modifies this
      ensures Valid()
      ensures View() == Applied(c, old(View()), ack)
    {
      AppliedStrongExact(c, View(), ack);
      assert StrongExact(View(), ack.origin);
      var t := AddMsg(c, if ack.origin in changes then changes[ack.origin] else Tracked(map[], None),
                      ack.source, ack.change);
      changes := changes[ack.origin := t];
      if t.strongCert.None? {
        assert View() == Applied(c, old(View()), ack);
        return;
      }
      if ack.origin in strongChanges {
        assert View() == Applied(c, old(View()), ack);
        return;
      }
      strongChanges := strongChanges[ack.origin := t.received[t.strongCert.value].parsed];
      assert View() == Applied(c, old(View()), ack);
    }

    /** The leader's message, with the checkpoint table walked in `order`. */
    method ConstructNewEpoch(leaders: seq<NodeId>, order: seq<Checkpoint>) returns (r: Built)
      requires IsOrder(c, strongChanges, order)
      requires Valid()
      ensures r == NewEpochOf(c, leaders, View(), order)
      ensures r.Proposal? ==> RightConfig(c, leaders, strongChanges, r.msg.config)
      ensures r.Proposal? ==> RefersToStrong(c.nodes, View(), r.msg.references) && |strongChanges| >= IntersectionQuorum(c)
      ensures forall k :: |strongChanges| >= IntersectionQuorum(c) && GreatestCertified(c, strongChanges, k)
                          && OneValueEach(c, strongChanges) && WindowDecided(c, strongChanges, k.seqNo) ==>
                            r.Proposal? && r.msg.config.startingCheckpoint == k
    {
      hide GreatestCertified;
      hide OneValueEach;
      hide WindowDecided;
      hide RightConfig;
      hide RefersToStrong;
      if |strongChanges| < IntersectionQuorum(c) {
        return Waiting;
      }
      var outcome := ConstructNewEpochConfig(c, leaders, strongChanges, order);
      if outcome.Conflict? {
        return Panic;
      }
      if outcome.NotYet? {
        return Waiting;
      }
      var references: seq<Reference> := [];
      for i := 0 to |c.nodes|
        invariant references == References(c.nodes[..i], View())
      {
        assert Init(c.nodes[..i + 1]) == c.nodes[..i] && Last(c.nodes[..i + 1]) == c.nodes[i];
        var node := c.nodes[i];
        assert StrongExact(View(), node);
        if node !in strongChanges {
          continue;
        }
        references := references + [Reference(node, changes[node].strongCert.value)];
      }
      assert c.nodes[..|c.nodes|] == c.nodes;
      ReferencesExact(c.nodes, View());
      r := Proposal(NewEpoch(outcome.config, references));
    }

    method ResolveReferences(references: seq<Reference>) returns (r: Option<Changes>)
      ensures r == Resolved(c, View(), references)
    {
      var epochChanges: Changes := map[];
      for i := 0 to |references|
        invariant Resolved(c, View(), references[..i]) == Some(epochChanges)
      {
        ghost var upto := references[..i + 1];
        assert Init(upto) == references[..i] && Last(upto) == references[i];
        var remote := references[i];
        if remote.node in epochChanges || remote.node !in changes {
          ResolvedFails(c, View(), references, i);
          return None;
        }
        var change := changes[remote.node];
        if remote.change !in change.received || |change.received[remote.change].acks| < SomeCorrectQuorum(c) {
          ResolvedFails(c, View(), references, i);
          return None;
        }
        epochChanges := epochChanges[remote.node := change.received[remote.change].parsed];
      }
      assert references[..|references|] == references;
      r := Some(epochChanges);
    }

    /** A follower's check of the leader's message; `order` is its own walk over the checkpoint table. */
    method VerifyNewEpochState(msg: NewEpoch, order: seq<Checkpoint>) returns (accepted: bool)
      requires var changes := Resolved(c, View(), msg.references);
               changes.Some? ==> IsOrder(c, changes.value, order)
      ensures accepted <==> Accepts(c, View(), msg, order)
      ensures accepted ==> OncePerNode(msg.references) && forall r :: r in msg.references ==> Vouched(c, View(), r)
      ensures accepted ==> exists changes :: && ResolvesTo(View(), msg.references, changes)
                                             && RightConfig(c, msg.config.config.leaders, changes, msg.config)
    {
      hide RightConfig;
      hide ResolvesTo;
      hide OncePerNode;
      ResolvedIff(c, View(), msg.references);
      var epochChanges := ResolveReferences(msg.references);
      if epochChanges.None? {
        return false;
      }
      var outcome := ConstructNewEpochConfig(c, msg.config.config.leaders, epochChanges.value, order);
      accepted := outcome == Chosen(msg.config);
    }
  }

  lemma {:induction false} ResolvedFails(c: NetworkConfig, seen: Seen, references: seq<Reference>, i: nat)
    requires i < |references| && Resolved(c, seen, references[..i + 1]).None?
    ensures Resolved(c, seen, references).None?
    decreases |references|
  {
    if i + 1 < |references| {
      var init := Init(references);
      assert init[..i + 1] == references[..i + 1];
      ResolvedFails(c, seen, init, i);
    } else {
      assert references[..i + 1] == references;
    }
  }

  // ---------------------------------------------------------------- a correct leader is accepted

  function Among(changes: Changes, nodes: seq<NodeId>): Changes {
    map n | n in changes && n in nodes :: changes[n]
  }

  /** A follower that holds every referenced change resolves the references to the leader's own table. */
  lemma {:induction false} ResolvesToStrong(c: NetworkConfig, lead: Seen, follow: Seen, nodes: seq<NodeId>)
    requires forall i, j :: 0 <= i < j < |nodes| ==> nodes[i] != nodes[j]
    requires forall o :: StrongExact(lead, o)
    requires forall o, m :: m in TrackedFor(lead, o).received && m in TrackedFor(follow, o).received ==>
                              TrackedFor(lead, o).received[m].parsed == TrackedFor(follow, o).received[m].parsed
    requires forall r :: r in References(nodes, lead) ==> Holds(c, follow, r)
    ensures Resolved(c, follow, References(nodes, lead)) == Some(Among(lead.strongChanges, nodes))
  {
    if nodes == [] {
      assert Among(lead.strongChanges, nodes) == map[];
    } else {
      var init, node := Init(nodes), Last(nodes);
      assert nodes == init + [node];
      var before, all := References(init, lead), References(nodes, lead);
      assert forall r :: r in before ==> r in all;
      ResolvesToStrong(c, lead, follow, init);
      assert StrongExact(lead, node);
      assert node !in init;
      if node in lead.strongChanges {
        var r := Reference(node, TrackedFor(lead, node).strongCert.value);
        assert all == before + [r] && Init(all) == before && Last(all) == r;
        assert Holds(c, follow, r);
        assert Among(lead.strongChanges, nodes) == Among(lead.strongChanges, init)[node := lead.strongChanges[node]];
      } else {
        assert all == before;
        assert Among(lead.strongChanges, nodes) == Among(lead.strongChanges, init);
      }
    }
  }

  lemma SameParse(c: NetworkConfig, a: seq<Ack>, b: seq<Ack>, o: NodeId, m: EpochChange)
    requires c.Valid()
    requires m in TrackedFor(SeenAfter(c, a), o).received && m in TrackedFor(SeenAfter(c, b), o).received
    ensures TrackedFor(SeenAfter(c, a), o).received[m].parsed == TrackedFor(SeenAfter(c, b), o).received[m].parsed
  {
    SeenExact(c, a, o);
    SeenExact(c, b, o);
    assert EntryExact(a, o, TrackedFor(SeenAfter(c, a), o), m) && EntryExact(b, o, TrackedFor(SeenAfter(c, b), o), m);
  }

  /** The message of a leader passes verification at every follower that holds what it refers to,
      however either of them walks its checkpoint table. */
  lemma LeaderAccepted(c: NetworkConfig, faulty: set<NodeId>, leaders: seq<NodeId>, leadAcks: seq<Ack>,
                       followAcks: seq<Ack>,
                       o1: seq<Checkpoint>, o2: seq<Checkpoint>, msg: NewEpoch)
    requires FaultBound(c, faulty)
    requires var lead := SeenAfter(c, leadAcks);
             && lead.strongChanges.Keys <= NodeSet(c) && HonestCheckpoints(lead.strongChanges, faulty)
             && IsOrder(c, lead.strongChanges, o1) && IsOrder(c, lead.strongChanges, o2)
             && NewEpochOf(c, leaders, lead, o1) == Proposal(msg)
    requires forall r :: r in msg.references ==> Holds(c, SeenAfter(c, followAcks), r)
    ensures Resolved(c, SeenAfter(c, followAcks), msg.references) == Some(SeenAfter(c, leadAcks).strongChanges)
    ensures Accepts(c, SeenAfter(c, followAcks), msg, o2)
  {
    hide SeenAfter;
    hide Exact;
    hide StrongExact;
    hide HonestCheckpoints;
    hide IsOrder;
    hide Holds;
    hide Resolved;
    var lead, follow := SeenAfter(c, leadAcks), SeenAfter(c, followAcks);
    forall o ensures StrongExact(lead, o) {
      SeenExact(c, leadAcks, o);
    }
    forall o, m | m in TrackedFor(lead, o).received && m in TrackedFor(follow, o).received
      ensures TrackedFor(lead, o).received[m].parsed == TrackedFor(follow, o).received[m].parsed
    {
      SameParse(c, leadAcks, followAcks, o, m);
    }
    ResolvesToStrong(c, lead, follow, c.nodes);
    assert Among(lead.strongChanges, c.nodes) == lead.strongChanges;
    PanicUnreachable(c, lead.strongChanges, faulty);
    OrderIrrelevant(c, leaders, lead.strongChanges, o1, o2);
  }

  /** Correct nodes acknowledge only what configured nodes sent, and what they told the leader they
      told the follower too. */
  ghost predicate Gossiped(c: NetworkConfig, faulty: set<NodeId>, leadAcks: seq<Ack>, followAcks: seq<Ack>) {
    forall ack :: ack in leadAcks && ack.source !in faulty ==> ack.origin in NodeSet(c) && ack in followAcks
  }

  lemma StrongIsGossiped(c: NetworkConfig, faulty: set<NodeId>, leadAcks: seq<Ack>, followAcks: seq<Ack>, o: NodeId,
                         m: EpochChange)
    requires FaultBound(c, faulty) && Gossiped(c, faulty, leadAcks, followAcks)
    requires |Ackers(leadAcks, o, m)| >= IntersectionQuorum(c)
    ensures o in NodeSet(c) && |Ackers(followAcks, o, m)| >= SomeCorrectQuorum(c)
  {
    var correct := Ackers(leadAcks, o, m) - faulty;
    SubsetSize(Ackers(leadAcks, o, m) * faulty, faulty);
    assert |Ackers(leadAcks, o, m)| == |correct| + |Ackers(leadAcks, o, m) * faulty| by {
      assert Ackers(leadAcks, o, m) == correct + Ackers(leadAcks, o, m) * faulty;
    }
    forall n | n in correct ensures n in Ackers(followAcks, o, m) && o in NodeSet(c) {
      var i :| 0 <= i < |leadAcks| && leadAcks[i].origin == o && leadAcks[i].change == m && leadAcks[i].source == n;
      assert leadAcks[i] in leadAcks;
      var j :| 0 <= j < |followAcks| && followAcks[j] == leadAcks[i];
    }
    SubsetSize(correct, Ackers(followAcks, o, m));
    var n :| n in correct;
  }

  lemma {:induction false} ReferenceIsStrong(nodes: seq<NodeId>, seen: Seen, r: Reference)
    requires r in References(nodes, seen)
    ensures r.node in seen.strongChanges && TrackedFor(seen, r.node).strongCert == Some(r.change)
  {
    if nodes != [] && r in References(Init(nodes), seen) {
      ReferenceIsStrong(Init(nodes), seen, r);
    }
  }

  lemma StrongIsHeld(c: NetworkConfig, faulty: set<NodeId>, leadAcks: seq<Ack>, followAcks: seq<Ack>, r: Reference)
    requires FaultBound(c, faulty) && Gossiped(c, faulty, leadAcks, followAcks)
    requires TrackedFor(SeenAfter(c, leadAcks), r.node).strongCert == Some(r.change)
    ensures r.node in NodeSet(c) && Holds(c, SeenAfter(c, followAcks), r)
  {
    hide SeenAfter;
    SeenExact(c, leadAcks, r.node);
    SeenExact(c, followAcks, r.node);
    var t, t' := TrackedFor(SeenAfter(c, leadAcks), r.node), TrackedFor(SeenAfter(c, followAcks), r.node);
    assert EntryExact(leadAcks, r.node, t, r.change) && EntryExact(followAcks, r.node, t', r.change);
    StrongIsGossiped(c, faulty, leadAcks, followAcks, r.node, r.change);
  }

  /** A correct leader is never rejected: once a follower has the acknowledgements of the correct nodes
      that the leader used, it accepts the leader's message. */
  lemma CorrectLeaderAccepted(c: NetworkConfig, faulty: set<NodeId>, leaders: seq<NodeId>, leadAcks: seq<Ack>,
                              followAcks: seq<Ack>,
                              o1: seq<Checkpoint>, o2: seq<Checkpoint>, msg: NewEpoch)
    requires FaultBound(c, faulty) && Gossiped(c, faulty, leadAcks, followAcks)
    requires var lead := SeenAfter(c, leadAcks);
             && HonestCheckpoints(lead.strongChanges, faulty)
             && IsOrder(c, lead.strongChanges, o1) && IsOrder(c, lead.strongChanges, o2)
             && NewEpochOf(c, leaders, lead, o1) == Proposal(msg)
    ensures Accepts(c, SeenAfter(c, followAcks), msg, o2)
  {
    hide HonestCheckpoints;
    hide IsOrder;
    hide SeenAfter;
    hide Accepts;
    hide Gossiped;
    hide Holds;
    var lead := SeenAfter(c, leadAcks);
    forall o | o in lead.strongChanges ensures o in NodeSet(c) {
      SeenExact(c, leadAcks, o);
      hide Exact;
      StrongIsHeld(c, faulty, leadAcks, followAcks, Reference(o, TrackedFor(lead, o).strongCert.value));
    }
    forall r | r in msg.references ensures Holds(c, SeenAfter(c, followAcks), r) {
      ReferenceIsStrong(c.nodes, lead, r);
      StrongIsHeld(c, faulty, leadAcks, followAcks, r);
    }
    LeaderAccepted(c, faulty, leaders, leadAcks, followAcks, o1, o2, msg);
  }

  // ---------------------------------------------------------------- fetching

  /** The referenced nodes whose Q set has `d` at `s` in some epoch: where to fetch the batch from. */
  function Sources(ec: Changes, s: nat, d: Digest): set<NodeId> {
    set n | n in ec && exists e :: e in Views(ec[n].qSet, s) && Views(ec[n].qSet, s)[e] == d
  }

  /** Every batch that a chosen configuration carries over has f+1 sources, so the panic for too few is
      unreachable after verification. */
  lemma EnoughSources(c: NetworkConfig, leaders: seq<NodeId>, ec: Changes, order: seq<Checkpoint>, k: NewEpochConfig,
                      i: nat)
    requires OutcomeInOrder(c, leaders, ec, order) == Chosen(k)
    requires i < |k.finalPreprepares| && k.finalPreprepares[i] != NullDigest
    ensures |Sources(ec, k.startingCheckpoint.seqNo + 1 + i, k.finalPreprepares[i])| >= SomeCorrectQuorum(c)
  {
    var s := k.startingCheckpoint.seqNo + 1 + i;
    var selected := FirstSelected(c, c.nodes, ec, s);
    assert k.finalPreprepares == CarriedDigests(c, ec, k.startingCheckpoint.seqNo, Window(c));
    assert k.finalPreprepares[i] == CarryDigest(CarryAt(c, ec, s));
    assert selected.Some? && selected.value.digest == k.finalPreprepares[i];
    SubsetSize(A2Votes(ec, s, selected.value), Sources(ec, s, k.finalPreprepares[i]));
  }
}
