/** The choice of a new epoch's starting checkpoint and of the digests it carries over. */
module NewEpochConfigs {
  import opened Types
  import opened Quorums
  import opened EpochChanges

  type Changes = map<NodeId, ParsedEpochChange>

  /** What the construction ends with: it panics on two supported values for the greatest checkpoint
      seen so far, it waits for more epoch changes, or it has a configuration. */
  datatype Outcome = Conflict | NotYet | Chosen(config: NewEpochConfig)

  // ---------------------------------------------------------------- starting checkpoint

  function Named(checkpoints: seq<Checkpoint>, node: NodeId, key: Checkpoint): seq<NodeId> {
    if checkpoints == [] then []
    else Named(Init(checkpoints), node, key) + (if Last(checkpoints) == key then [node] else [])
  }

  function NamedBy(ec: Changes, node: NodeId, key: Checkpoint): seq<NodeId> {
    if node in ec then Named(ec[node].underlying.checkpoints, node, key) else []
  }

  /** The supporters of a checkpoint in configuration order, once per mention. */
  function Supporters(nodes: seq<NodeId>, ec: Changes, key: Checkpoint): seq<NodeId> {
    if nodes == [] then []
    else Supporters(Init(nodes), ec, key) + NamedBy(ec, Last(nodes), key)
  }

  function NewEpochNumber(nodes: seq<NodeId>, ec: Changes): nat {
    if nodes == [] then 0
    else if Last(nodes) in ec then ec[Last(nodes)].underlying.newEpoch
    else NewEpochNumber(Init(nodes), ec)
  }

  function AtOrBelow(ec: Changes, seqNo: nat): set<NodeId> {
    set i | i in ec && ec[i].lowWatermark <= seqNo
  }

  predicate Eligible(c: NetworkConfig, ec: Changes, key: Checkpoint) {
    && |Supporters(c.nodes, ec, key)| >= SomeCorrectQuorum(c)
    && |AtOrBelow(ec, key.seqNo)| >= IntersectionQuorum(c)
  }

  datatype Scan = Clash | Best(best: Option<Checkpoint>)

  function ScanStep(acc: Scan, eligible: bool, key: Checkpoint): Scan {
    match acc
    case Clash => Clash
    case Best(best) =>
      if !eligible then acc
      else if best.None? then Best(Some(key))
      else if best.value.seqNo > key.seqNo then acc
      else if best.value.seqNo == key.seqNo then Clash
      else Best(Some(key))
  }

  /** The walk over the checkpoint table in the order the runtime happens to use. */
  function ScanInOrder(c: NetworkConfig, ec: Changes, order: seq<Checkpoint>): Scan {
    if order == [] then Best(None)
    else ScanStep(ScanInOrder(c, ec, Init(order)), Eligible(c, ec, Last(order)), Last(order))
  }

  /** `order` lists every checkpoint that some configured node names, once. */
  ghost predicate IsOrder(c: NetworkConfig, ec: Changes, order: seq<Checkpoint>) {
    && (forall i, j :: 0 <= i < j < |order| ==> order[i] != order[j])
    && (forall k :: k in order <==> Supporters(c.nodes, ec, k) != [])
  }

  /** Two values for one checkpoint number are both eligible. */
  ghost predicate Conflicting(c: NetworkConfig, ec: Changes, k1: Checkpoint, k2: Checkpoint) {
    k1 != k2 && k1.seqNo == k2.seqNo && Eligible(c, ec, k1) && Eligible(c, ec, k2)
  }

  ghost predicate Unambiguous(c: NetworkConfig, ec: Changes) {
    forall k1, k2 :: !Conflicting(c, ec, k1, k2)
  }

  // ---------------------------------------------------------------- carried-over digests

  predicate A1Vote(p: ParsedEpochChange, s: nat, entry: SetEntry) {
    && p.lowWatermark < s
    && (s in p.pSet ==>
          || p.pSet[s].epoch < entry.epoch
          || (p.pSet[s].epoch == entry.epoch && p.pSet[s].digest == entry.digest))
  }

  function A1Votes(ec: Changes, s: nat, entry: SetEntry): set<NodeId> {
    set i | i in ec && A1Vote(ec[i], s, entry)
  }

  predicate Vouches(views: map<nat, Digest>, entry: SetEntry) {
    exists e :: e in views && e >= entry.epoch && views[e] == entry.digest
  }

  predicate A2Vote(p: ParsedEpochChange, s: nat, entry: SetEntry) {
    Vouches(Views(p.qSet, s), entry)
  }

  function A2Votes(ec: Changes, s: nat, entry: SetEntry): set<NodeId> {
    set i | i in ec && A2Vote(ec[i], s, entry)
  }

  predicate BVote(p: ParsedEpochChange, s: nat) {
    p.lowWatermark < s && s !in p.pSet
  }

  function BVotes(ec: Changes, s: nat): set<NodeId> {
    set i | i in ec && BVote(ec[i], s)
  }

  predicate Selects(c: NetworkConfig, ec: Changes, s: nat, entry: SetEntry) {
    && |A1Votes(ec, s, entry)| >= IntersectionQuorum(c)
    && |A2Votes(ec, s, entry)| >= SomeCorrectQuorum(c)
  }

  function FirstSelected(c: NetworkConfig, nodes: seq<NodeId>, ec: Changes, s: nat): (r: Option<SetEntry>)
    ensures r.Some? ==> Selects(c, ec, s, r.value)
  {
    if nodes == [] then None
    else if nodes[0] in ec && s in ec[nodes[0]].pSet && Selects(c, ec, s, ec[nodes[0]].pSet[s])
    then Some(ec[nodes[0]].pSet[s])
    else FirstSelected(c, nodes[1..], ec, s)
  }

  datatype Carry = Carried(digest: Digest) | Nothing | Undecided

  function CarryAt(c: NetworkConfig, ec: Changes, s: nat): Carry {
    var selected := FirstSelected(c, c.nodes, ec, s);
    if selected.Some? then Carried(selected.value.digest)
    else if |BVotes(ec, s)| >= IntersectionQuorum(c) then Nothing
    else Undecided
  }

  function CarryDigest(carry: Carry): Digest {
    if carry.Carried? then carry.digest else NullDigest
  }

  function CarriedDigests(c: NetworkConfig, ec: Changes, start: nat, n: nat): seq<Digest> {
    seq(n, i requires 0 <= i < n => CarryDigest(CarryAt(c, ec, start + 1 + i)))
  }

  predicate AnyCarried(c: NetworkConfig, ec: Changes, start: nat, n: nat) {
    exists s :: start < s <= start + n && CarryAt(c, ec, s).Carried?
  }

  predicate AllDecided(c: NetworkConfig, ec: Changes, start: nat, n: nat) {
    forall s :: start < s <= start + n ==> !CarryAt(c, ec, s).Undecided?
  }

  /** The length of the log window that a new epoch's digests describe. */
  function Window(c: NetworkConfig): nat {
    2 * c.checkpointInterval
  }

  function DigestsAt(c: NetworkConfig, ec: Changes, start: nat): Option<seq<Digest>> {
    if !AllDecided(c, ec, start, Window(c)) then None
    else if AnyCarried(c, ec, start, Window(c)) then Some(CarriedDigests(c, ec, start, Window(c)))
    else Some([])
  }

  function ConfigAt(c: NetworkConfig, leaders: seq<NodeId>, ec: Changes, start: Checkpoint): Outcome {
    match DigestsAt(c, ec, start.seqNo)
    case None => NotYet
    case Some(digests) =>
      Chosen(NewEpochConfig(
               EpochConfig(NewEpochNumber(c.nodes, ec), leaders, start.seqNo + c.maxEpochLength),
               start,
               digests))
  }

  function OutcomeInOrder(c: NetworkConfig, leaders: seq<NodeId>, ec: Changes, order: seq<Checkpoint>): Outcome {
    match ScanInOrder(c, ec, order)
    case Clash => Conflict
    case Best(None) => NotYet
    case Best(Some(start)) => ConfigAt(c, leaders, ec, start)
  }

  // ---------------------------------------------------------------- what the answer means

  /** Where a checkpoint is named: the place of the node in the configuration and the place in its message. */
  function PlacesNamed(nodes: seq<NodeId>, ec: Changes, key: Checkpoint): set<(nat, nat)> {
    set i: nat, j: nat | i < |nodes| && nodes[i] in ec && j < |ec[nodes[i]].underlying.checkpoints|
                         && ec[nodes[i]].underlying.checkpoints[j] == key :: (i, j)
  }

  ghost predicate QuorumOf(c: NetworkConfig, ec: Changes, q: set<NodeId>) {
    q <= ec.Keys && |q| >= IntersectionQuorum(c)
  }

  ghost predicate AllAtOrBelow(ec: Changes, q: set<NodeId>, s: nat) {
    forall i :: i in q && i in ec ==> ec[i].lowWatermark <= s
  }

  ghost predicate AllA1(ec: Changes, q: set<NodeId>, s: nat, entry: SetEntry) {
    forall i :: i in q && i in ec ==> A1Vote(ec[i], s, entry)
  }

  ghost predicate AllA2(ec: Changes, q: set<NodeId>, s: nat, entry: SetEntry) {
    forall i :: i in q && i in ec ==> A2Vote(ec[i], s, entry)
  }

  ghost predicate AllB(ec: Changes, q: set<NodeId>, s: nat) {
    forall i :: i in q && i in ec ==> ec[i].lowWatermark < s && s !in ec[i].pSet
  }

  /** It is named more than f times, and a quorum of the changes has its low watermark at or below it. */
  ghost predicate Certified(c: NetworkConfig, ec: Changes, key: Checkpoint) {
    && |PlacesNamed(c.nodes, ec, key)| > c.f
    && exists q :: QuorumOf(c, ec, q) && AllAtOrBelow(ec, q, key.seqNo)
  }

  ghost predicate GreatestCertified(c: NetworkConfig, ec: Changes, key: Checkpoint) {
    Certified(c, ec, key) && forall k :: Certified(c, ec, k) ==> k == key || k.seqNo < key.seqNo
  }

  ghost predicate OneValueEach(c: NetworkConfig, ec: Changes) {
    forall k1, k2 :: Certified(c, ec, k1) && Certified(c, ec, k2) && k1.seqNo == k2.seqNo ==> k1 == k2
  }

  ghost predicate ConditionA(c: NetworkConfig, ec: Changes, s: nat, entry: SetEntry) {
    && (exists q :: QuorumOf(c, ec, q) && AllA1(ec, q, s, entry))
    && (exists q :: q <= ec.Keys && |q| > c.f && AllA2(ec, q, s, entry))
  }

  ghost predicate ConditionB(c: NetworkConfig, ec: Changes, s: nat) {
    exists q :: QuorumOf(c, ec, q) && AllB(ec, q, s)
  }

  /** Some configured node's P entry for `s` is of `d` and fulfils condition A. */
  ghost predicate AdmitsAt(c: NetworkConfig, ec: Changes, s: nat, d: Digest) {
    exists i :: i in c.nodes && i in ec && s in ec[i].pSet && ec[i].pSet[s].digest == d
                && ConditionA(c, ec, s, ec[i].pSet[s])
  }

  ghost predicate DecidedAt(c: NetworkConfig, ec: Changes, s: nat) {
    ConditionB(c, ec, s) || exists d :: AdmitsAt(c, ec, s, d)
  }

  ghost predicate WindowDecided(c: NetworkConfig, ec: Changes, start: nat) {
    forall s :: start < s <= start + 2 * c.checkpointInterval ==> DecidedAt(c, ec, s)
  }

  /** `d` is what the new epoch starts with at `s`. */
  ghost predicate RightAt(c: NetworkConfig, ec: Changes, s: nat, d: Digest) {
    || AdmitsAt(c, ec, s, d)
    || (d == NullDigest && ConditionB(c, ec, s) && forall d1 :: !AdmitsAt(c, ec, s, d1))
  }

  ghost predicate NoneAdmitted(c: NetworkConfig, ec: Changes, start: nat) {
    forall s, d :: start < s <= start + 2 * c.checkpointInterval ==> !AdmitsAt(c, ec, s, d)
  }

  ghost predicate RightDigests(c: NetworkConfig, ec: Changes, start: nat, digests: seq<Digest>) {
    if NoneAdmitted(c, ec, start) then digests == []
    else |digests| == 2 * c.checkpointInterval
         && forall i :: 0 <= i < |digests| ==> RightAt(c, ec, start + 1 + i, digests[i])
  }

  ghost predicate AllFor(ec: Changes, e: nat) {
    forall i :: i in ec ==> ec[i].underlying.newEpoch == e
  }

  ghost predicate RightConfig(c: NetworkConfig, leaders: seq<NodeId>, ec: Changes, k: NewEpochConfig) {
    var start := k.startingCheckpoint;
    && GreatestCertified(c, ec, start) && WindowDecided(c, ec, start.seqNo)
    && k.config.plannedExpiration == start.seqNo + c.maxEpochLength && k.config.leaders == leaders
    && (forall e :: AllFor(ec, e) ==> k.config.number == e)
    && RightDigests(c, ec, start.seqNo, k.finalPreprepares)
  }

  /** What each outcome says about the epoch changes. */
  ghost predicate Answers(c: NetworkConfig, leaders: seq<NodeId>, ec: Changes, r: Outcome) {
    match r
    case Conflict => !OneValueEach(c, ec)
    case NotYet => (forall k :: !Certified(c, ec, k))
                   || exists k :: GreatestCertified(c, ec, k) && !WindowDecided(c, ec, k.seqNo)
    case Chosen(k) => RightConfig(c, leaders, ec, k)
  }

  // ---------------------------------------------------------------- the construction itself

  lemma CountStep<T>(all: set<T>, rest: set<T>, x: T, votes: set<T>)
    requires rest <= all && x in rest && votes <= all
    ensures |votes * (all - (rest - {x}))| == |votes * (all - rest)| + (if x in votes then 1 else 0)
  {
    var before := votes * (all - rest);
    var after := votes * (all - (rest - {x}));
    if x in votes {
      assert after == before + {x};
    } else {
      assert after == before;
    }
  }

  method CountAtOrBelow(ec: Changes, seqNo: nat) returns (n: nat)
    ensures n == |AtOrBelow(ec, seqNo)|
  {
    n := 0;
    var rest := ec.Keys;
    ghost var votes := AtOrBelow(ec, seqNo);
    while rest != {}
      invariant rest <= ec.Keys
      invariant n == |votes * (ec.Keys - rest)|
      decreases rest
    {
      var i :| i in rest;
      CountStep(ec.Keys, rest, i, votes);
      if ec[i].lowWatermark <= seqNo {
        n := n + 1;
      }
      rest := rest - {i};
    }
    assert votes * (ec.Keys - rest) == votes;
  }

  method CountA1(ec: Changes, s: nat, entry: SetEntry) returns (n: nat)
    ensures n == |A1Votes(ec, s, entry)|
  {
    n := 0;
    var rest := ec.Keys;
    ghost var votes := A1Votes(ec, s, entry);
    while rest != {}
      invariant rest <= ec.Keys
      invariant n == |votes * (ec.Keys - rest)|
      decreases rest
    {
      var i :| i in rest;
      CountStep(ec.Keys, rest, i, votes);
      rest := rest - {i};
      if ec[i].lowWatermark >= s {
        continue;
      }
      if s !in ec[i].pSet || ec[i].pSet[s].epoch < entry.epoch {
        n := n + 1;
        continue;
      }
      if ec[i].pSet[s].epoch > entry.epoch {
        continue;
      }
      if entry.digest == ec[i].pSet[s].digest {
        n := n + 1;
      }
    }
    assert votes * (ec.Keys - rest) == votes;
  }

  method HasA2Entry(views: map<nat, Digest>, entry: SetEntry) returns (found: bool)
    ensures found == Vouches(views, entry)
  {
    var rest := views.Keys;
    while rest != {}
      invariant rest <= views.Keys
      invariant forall e :: e in views && e !in rest ==> !(e >= entry.epoch && views[e] == entry.digest)
      decreases rest
    {
      var e :| e in rest;
      rest := rest - {e};
      if e < entry.epoch {
        continue;
      }
      if entry.digest != views[e] {
        continue;
      }
      return true;
    }
    return false;
  }

  method CountA2(ec: Changes, s: nat, entry: SetEntry) returns (n: nat)
    ensures n == |A2Votes(ec, s, entry)|
  {
    n := 0;
    var rest := ec.Keys;
    ghost var votes := A2Votes(ec, s, entry);
    while rest != {}
      invariant rest <= ec.Keys
      invariant n == |votes * (ec.Keys - rest)|
      decreases rest
    {
      var i :| i in rest;
      CountStep(ec.Keys, rest, i, votes);
      rest := rest - {i};
      if s !in ec[i].qSet {
        assert !A2Vote(ec[i], s, entry);
        continue;
      }
      assert Views(ec[i].qSet, s) == ec[i].qSet[s];
      var found := HasA2Entry(ec[i].qSet[s], entry);
      if found {
        n := n + 1;
      }
    }
    assert votes * (ec.Keys - rest) == votes;
  }

  method CountB(ec: Changes, s: nat) returns (n: nat)
    ensures n == |BVotes(ec, s)|
  {
    n := 0;
    var rest := ec.Keys;
    ghost var votes := BVotes(ec, s);
    while rest != {}
      invariant rest <= ec.Keys
      invariant n == |votes * (ec.Keys - rest)|
      decreases rest
    {
      var i :| i in rest;
      CountStep(ec.Keys, rest, i, votes);
      rest := rest - {i};
      if ec[i].lowWatermark >= s {
        continue;
      }
      if s !in ec[i].pSet {
        n := n + 1;
      }
    }
    assert votes * (ec.Keys - rest) == votes;
  }

  function Lookup(table: map<Checkpoint, seq<NodeId>>, key: Checkpoint): seq<NodeId> {
    if key in table then table[key] else []
  }

  method AddCheckpoints(before: map<Checkpoint, seq<NodeId>>, node: NodeId, checkpoints: seq<Checkpoint>)
    returns (table: map<Checkpoint, seq<NodeId>>)
    requires forall k :: k in before ==> before[k] != []
    ensures forall k :: Lookup(table, k) == Lookup(before, k) + Named(checkpoints, node, k)
    ensures forall k :: k in table ==> table[k] != []
  {
    table := before;
    for j := 0 to |checkpoints|
      invariant forall k :: Lookup(table, k) == Lookup(before, k) + Named(checkpoints[..j], node, k)
      invariant forall k :: k in table ==> table[k] != []
    {
      PrefixStep(checkpoints, j);
      var key := checkpoints[j];
      table := table[key := Lookup(table, key) + [node]];
    }
    assert checkpoints[..|checkpoints|] == checkpoints;
  }

  method CollectCheckpoints(c: NetworkConfig, ec: Changes)
    returns (table: map<Checkpoint, seq<NodeId>>, number: nat)
    ensures forall k :: Lookup(table, k) == Supporters(c.nodes, ec, k)
    ensures forall k :: k in table <==> Supporters(c.nodes, ec, k) != []
    ensures number == NewEpochNumber(c.nodes, ec)
  {
    hide Named;
    table, number := map[], 0;
    for i := 0 to |c.nodes|
      invariant forall k :: Lookup(table, k) == Supporters(c.nodes[..i], ec, k)
      invariant forall k :: k in table ==> table[k] != []
      invariant number == NewEpochNumber(c.nodes[..i], ec)
    {
      var node := c.nodes[i];
      PrefixStep(c.nodes, i);
      if node !in ec {
        continue;
      }
      number := ec[node].underlying.newEpoch;
      table := AddCheckpoints(table, node, ec[node].underlying.checkpoints);
    }
    assert c.nodes[..|c.nodes|] == c.nodes;
  }

  method IsEligible(c: NetworkConfig, ec: Changes, table: map<Checkpoint, seq<NodeId>>,
                    key: Checkpoint) returns (r: bool)
    requires Lookup(table, key) == Supporters(c.nodes, ec, key)
    ensures r <==> Eligible(c, ec, key)
  {
    if |Lookup(table, key)| < SomeCorrectQuorum(c) {
      return false;
    }
    var n := CountAtOrBelow(ec, key.seqNo);
    r := n >= IntersectionQuorum(c);
  }

  method ScanCheckpoints(c: NetworkConfig, ec: Changes, table: map<Checkpoint, seq<NodeId>>, order: seq<Checkpoint>)
    returns (r: Scan)
    requires forall k :: Lookup(table, k) == Supporters(c.nodes, ec, k)
    ensures r == ScanInOrder(c, ec, order)
  {
    hide Eligible;
    hide Supporters;
    r := Best(None);
    for i := 0 to |order|
      invariant r == ScanInOrder(c, ec, order[..i]) && r.Best?
    {
      PrefixStep(order, i);
      var key := order[i];
      var eligible := IsEligible(c, ec, table, key);
      if !eligible {
        continue;
      }
      if r.best.None? {
        r := Best(Some(key));
        continue;
      }
      if r.best.value.seqNo > key.seqNo {
        continue;
      }
      if r.best.value.seqNo == key.seqNo {
        ClashPersists(c, ec, order[..i + 1], order[i + 1..]);
        assert order == order[..i + 1] + order[i + 1..];
        return Clash;
      }
      r := Best(Some(key));
    }
    assert order[..|order|] == order;
  }

  method SelectEntry(c: NetworkConfig, ec: Changes, s: nat) returns (r: Option<SetEntry>)
    ensures r == FirstSelected(c, c.nodes, ec, s)
  {
    for i := 0 to |c.nodes|
      invariant FirstSelected(c, c.nodes, ec, s) == FirstSelected(c, c.nodes[i..], ec, s)
    {
      var node := c.nodes[i];
      assert c.nodes[i..][0] == node && c.nodes[i..][1..] == c.nodes[i + 1..];
      if node !in ec {
        continue;
      }
      if s !in ec[node].pSet {
        continue;
      }
      var entry := ec[node].pSet[s];
      var a1 := CountA1(ec, s, entry);
      if a1 < IntersectionQuorum(c) {
        continue;
      }
      var a2 := CountA2(ec, s, entry);
      if a2 < SomeCorrectQuorum(c) {
        continue;
      }
      return Some(entry);
    }
    return None;
  }

  method FinalPreprepares(c: NetworkConfig, ec: Changes, start: nat) returns (r: Option<seq<Digest>>)
    ensures r == DigestsAt(c, ec, start)
  {
    var digests: seq<Digest>, anySelected := [], false;
    for i := 0 to Window(c)
      invariant AllDecided(c, ec, start, i)
      invariant digests == CarriedDigests(c, ec, start, i)
      invariant anySelected == AnyCarried(c, ec, start, i)
    {
      var s := start + 1 + i;
      assert CarriedDigests(c, ec, start, i + 1) == CarriedDigests(c, ec, start, i) + [CarryDigest(CarryAt(c, ec, s))];
      var selected := SelectEntry(c, ec, s);
      if selected.Some? {
        digests, anySelected := digests + [selected.value.digest], true;
        assert CarryAt(c, ec, s).Carried?;
        continue;
      }
      var n := CountB(ec, s);
      if n < IntersectionQuorum(c) {
        assert CarryAt(c, ec, s).Undecided?;
        return None;
      }
      digests := digests + [NullDigest];
      assert CarryAt(c, ec, s).Nothing?;
    }
    r := Some(if anySelected then digests else []);
  }

  /** The construction, run with the checkpoint table walked in `order`. */
  method ConstructNewEpochConfig(c: NetworkConfig, leaders: seq<NodeId>, ec: Changes, order: seq<Checkpoint>)
    returns (r: Outcome)
    requires IsOrder(c, ec, order)
    ensures r == OutcomeInOrder(c, leaders, ec, order)
    ensures Answers(c, leaders, ec, r)
    ensures forall k :: GreatestCertified(c, ec, k) && OneValueEach(c, ec) && WindowDecided(c, ec, k.seqNo) ==>
                          r.Chosen? && r.config.startingCheckpoint == k
  {
    AnswersInOrder(c, leaders, ec, order);
    hide GreatestCertified;
    hide OneValueEach;
    hide WindowDecided;
    hide Answers;
    hide ScanInOrder;
    hide DigestsAt;
    hide Supporters;
    hide NewEpochNumber;
    hide IsOrder;
    var table, number := CollectCheckpoints(c, ec);
    var scan := ScanCheckpoints(c, ec, table, order);
    if scan.Clash? {
      return Conflict;
    }
    if scan.best.None? {
      return NotYet;
    }
    var start := scan.best.value;
    var digests := FinalPreprepares(c, ec, start.seqNo);
    if digests.None? {
      return NotYet;
    }
    r := Chosen(NewEpochConfig(
                  EpochConfig(number, leaders, start.seqNo + c.maxEpochLength),
                  start,
                  digests.value));
  }

  // ---------------------------------------------------------------- the order does not matter

  lemma {:induction false} ClashPersists(c: NetworkConfig, ec: Changes, a: seq<Checkpoint>, b: seq<Checkpoint>)
    requires ScanInOrder(c, ec, a).Clash?
    ensures ScanInOrder(c, ec, a + b).Clash?
    decreases |b|
  {
    if b == [] {
      assert a + b == a;
    } else {
      ClashPersists(c, ec, a, Init(b));
      assert Init(a + b) == a + Init(b) && Last(a + b) == Last(b);
    }
  }

  /** A walk that does not clash ends at the eligible checkpoint with the greatest number. */
  lemma {:induction false} ScanFindsGreatest(c: NetworkConfig, ec: Changes, order: seq<Checkpoint>)
    ensures
      match ScanInOrder(c, ec, order)
      case Clash => exists i, j :: 0 <= i < |order| && 0 <= j < |order| && i != j && order[i].seqNo == order[j].seqNo
                                   && Eligible(c, ec, order[i]) && Eligible(c, ec, order[j])
      case Best(None) => forall k :: k in order ==> !Eligible(c, ec, k)
      case Best(Some(b)) =>
        && b in order && Eligible(c, ec, b)
        && forall k :: k in order && Eligible(c, ec, k) ==> k == b || k.seqNo < b.seqNo
  {
    if order != [] {
      var init, last := Init(order), Last(order);
      ScanFindsGreatest(c, ec, init);
      assert order == init + [last];
      match ScanInOrder(c, ec, init) {
        case Clash =>
          var i, j :| 0 <= i < |init| && 0 <= j < |init| && i != j && init[i].seqNo == init[j].seqNo
                      && Eligible(c, ec, init[i]) && Eligible(c, ec, init[j]);
          assert order[i] == init[i] && order[j] == init[j];
        case Best(best) =>
          if best.Some? && Eligible(c, ec, last) && best.value.seqNo == last.seqNo {
            var i :| 0 <= i < |init| && init[i] == best.value;
            assert order[i] == best.value && order[|init|] == last;
          }
      }
    }
  }

  /** If no checkpoint number has two eligible values, every walk avoids the panic and all walks
      return the same outcome. */
  lemma OrderIrrelevant(c: NetworkConfig, leaders: seq<NodeId>, ec: Changes, o1: seq<Checkpoint>, o2: seq<Checkpoint>)
    requires IsOrder(c, ec, o1) && IsOrder(c, ec, o2) && Unambiguous(c, ec)
    ensures !OutcomeInOrder(c, leaders, ec, o1).Conflict?
    ensures OutcomeInOrder(c, leaders, ec, o1) == OutcomeInOrder(c, leaders, ec, o2)
  {
    hide Eligible;
    hide Supporters;
    hide Unambiguous;
    NoClash(c, ec, o1);
    NoClash(c, ec, o2);
    ScanFindsGreatest(c, ec, o1);
    ScanFindsGreatest(c, ec, o2);
    assert forall k :: k in o1 <==> k in o2;
    assert ScanInOrder(c, ec, o1) == ScanInOrder(c, ec, o2);
  }

  lemma NoClash(c: NetworkConfig, ec: Changes, order: seq<Checkpoint>)
    requires IsOrder(c, ec, order) && Unambiguous(c, ec)
    ensures ScanInOrder(c, ec, order).Best?
  {
    ScanFindsGreatest(c, ec, order);
    if ScanInOrder(c, ec, order).Clash? {
      var i, j :| 0 <= i < |order| && 0 <= j < |order| && i != j && order[i].seqNo == order[j].seqNo
                  && Eligible(c, ec, order[i]) && Eligible(c, ec, order[j]);
      assert Conflicting(c, ec, order[i], order[j]);
      assert false;
    }
  }

  lemma Reordered(order: seq<Checkpoint>, k1: Checkpoint, k2: Checkpoint)
    requires k1 != k2 && k1 in order && k2 in order
    requires forall i, j :: 0 <= i < j < |order| ==> order[i] != order[j]
    ensures
      var bad := [k1, k2] + Without(Without(order, k1), k2);
      && (forall i, j :: 0 <= i < j < |bad| ==> bad[i] != bad[j])
      && (forall k :: k in bad <==> k in order)
  {
    hide Without;
    WithoutContent(order, k1);
    WithoutContent(Without(order, k1), k2);
    var rest := Without(Without(order, k1), k2);
    var bad := [k1, k2] + rest;
    forall i, j | 0 <= i < j < |bad| ensures bad[i] != bad[j] {
      assert j >= 2 ==> bad[j] == rest[j - 2] && rest[j - 2] in rest;
      assert i >= 2 ==> bad[i] == rest[i - 2];
    }
  }

  lemma ClashFirst(c: NetworkConfig, ec: Changes, k1: Checkpoint, k2: Checkpoint)
    requires Conflicting(c, ec, k1, k2)
    ensures ScanInOrder(c, ec, [k1, k2]).Clash?
  {
    hide Eligible;
    assert Init([k1, k2]) == [k1] && Init([k1]) == [];
    assert ScanInOrder(c, ec, [k1]) == Best(Some(k1));
  }

  lemma EligibleIsNamed(c: NetworkConfig, ec: Changes, k: Checkpoint)
    requires Eligible(c, ec, k)
    ensures Supporters(c.nodes, ec, k) != []
  {
  }

  /** Conversely, one number with two eligible values gives a walk that panics. */
  lemma ConflictPanics(c: NetworkConfig, leaders: seq<NodeId>, ec: Changes, order: seq<Checkpoint>,
                       k1: Checkpoint, k2: Checkpoint)
    returns (bad: seq<Checkpoint>)
    requires IsOrder(c, ec, order) && Conflicting(c, ec, k1, k2)
    ensures IsOrder(c, ec, bad) && OutcomeInOrder(c, leaders, ec, bad).Conflict?
  {
    hide Eligible;
    hide Supporters;
    hide ScanInOrder;
    var rest := Without(Without(order, k1), k2);
    bad := [k1, k2] + rest;
    EligibleIsNamed(c, ec, k1);
    EligibleIsNamed(c, ec, k2);
    Reordered(order, k1, k2);
    ClashFirst(c, ec, k1, k2);
    ClashPersists(c, ec, [k1, k2], rest);
  }

  function Without(order: seq<Checkpoint>, key: Checkpoint): seq<Checkpoint> {
    if order == [] then []
    else Without(Init(order), key) + (if Last(order) == key then [] else [Last(order)])
  }

  lemma {:induction false} WithoutContent(order: seq<Checkpoint>, key: Checkpoint)
    requires forall i, j :: 0 <= i < j < |order| ==> order[i] != order[j]
    ensures forall k :: k in Without(order, key) <==> k in order && k != key
    ensures forall i, j :: 0 <= i < j < |Without(order, key)| ==> Without(order, key)[i] != Without(order, key)[j]
  {
    if order != [] {
      WithoutContent(Init(order), key);
      assert order == Init(order) + [Last(order)];
      assert Last(order) !in Init(order);
    }
  }

  lemma {:induction false} SameNumber(nodes: seq<NodeId>, ec: Changes, e: nat)
    requires forall i :: i in ec ==> ec[i].underlying.newEpoch == e
    requires exists i :: i in nodes && i in ec
    ensures NewEpochNumber(nodes, ec) == e
  {
    if Last(nodes) !in ec {
      var i :| i in nodes && i in ec;
      assert i in Init(nodes);
      SameNumber(Init(nodes), ec, e);
    }
  }

  // ---------------------------------------------------------------- the outcome is the right one

  function PlacesIn(checkpoints: seq<Checkpoint>, i: nat, key: Checkpoint): set<(nat, nat)> {
    set j: nat | j < |checkpoints| && checkpoints[j] == key :: (i, j)
  }

  lemma PlacesInStep(checkpoints: seq<Checkpoint>, i: nat, key: Checkpoint)
    requires checkpoints != []
    ensures
      var n := |checkpoints| - 1;
      var before := PlacesIn(Init(checkpoints), i, key);
      && (i, n) !in before
      && PlacesIn(checkpoints, i, key) == before + if checkpoints[n] == key then {(i, n)} else {}
  {
    var init, n := Init(checkpoints), |checkpoints| - 1;
    assert forall j :: 0 <= j < n ==> init[j] == checkpoints[j];
  }

  lemma {:induction false} NamedCounts(checkpoints: seq<Checkpoint>, node: NodeId, i: nat, key: Checkpoint)
    ensures |Named(checkpoints, node, key)| == |PlacesIn(checkpoints, i, key)|
  {
    hide PlacesIn;
    if checkpoints == [] {
      NoPlaces(i, key);
    } else {
      NamedCounts(Init(checkpoints), node, i, key);
      PlacesInStep(checkpoints, i, key);
    }
  }

  lemma NoPlaces(i: nat, key: Checkpoint)
    ensures PlacesIn([], i, key) == {}
  {
  }

  lemma PlacesNamedStep(nodes: seq<NodeId>, ec: Changes, key: Checkpoint)
    requires nodes != []
    ensures
      var before, all, n := PlacesNamed(Init(nodes), ec, key), PlacesNamed(nodes, ec, key), |nodes| - 1;
      if Last(nodes) in ec
      then var more := PlacesIn(ec[Last(nodes)].underlying.checkpoints, n, key); all == before + more && before !! more
      else all == before
  {
    var init, n, last := Init(nodes), |nodes| - 1, Last(nodes);
    assert forall i :: 0 <= i < n ==> init[i] == nodes[i];
    var before, all := PlacesNamed(init, ec, key), PlacesNamed(nodes, ec, key);
    if last in ec {
      var more := PlacesIn(ec[last].underlying.checkpoints, n, key);
      forall p: (nat, nat) ensures p in all <==> p in before + more {
      }
    } else {
      forall p: (nat, nat) ensures p in all <==> p in before {
      }
    }
  }

  /** The supporters list has one entry per mention. */
  lemma {:induction false} SupportersCount(nodes: seq<NodeId>, ec: Changes, key: Checkpoint)
    ensures |Supporters(nodes, ec, key)| == |PlacesNamed(nodes, ec, key)|
  {
    if nodes == [] {
      assert PlacesNamed(nodes, ec, key) == {};
    } else {
      SupportersCount(Init(nodes), ec, key);
      PlacesNamedStep(nodes, ec, key);
      hide PlacesNamed;
      hide PlacesIn;
      if Last(nodes) in ec {
        NamedCounts(ec[Last(nodes)].underlying.checkpoints, Last(nodes), |nodes| - 1, key);
      }
    }
  }

  /** Distinct configured nodes that name a checkpoint all count. */
  lemma NodesCount(c: NetworkConfig, ec: Changes, key: Checkpoint, q: set<NodeId>)
    requires q <= NodeSet(c) && q <= ec.Keys && forall i :: i in q ==> key in ec[i].underlying.checkpoints
    ensures |PlacesNamed(c.nodes, ec, key)| >= |q|
  {
    var all := PlacesNamed(c.nodes, ec, key);
    forall x | x in q ensures x in NodesAt(all, c.nodes) {
      var i :| 0 <= i < |c.nodes| && c.nodes[i] == x;
      var j :| 0 <= j < |ec[x].underlying.checkpoints| && ec[x].underlying.checkpoints[j] == key;
      assert (i, j) in all;
    }
    SubsetSize(q, NodesAt(all, c.nodes));
    NodesAtSize(all, c.nodes);
  }

  function NodesAt(all: set<(nat, nat)>, nodes: seq<NodeId>): set<NodeId> {
    set p | p in all && p.0 < |nodes| :: nodes[p.0]
  }

  lemma {:induction false} NodesAtSize(all: set<(nat, nat)>, nodes: seq<NodeId>)
    ensures |NodesAt(all, nodes)| <= |all|
  {
    if all == {} {
      assert NodesAt(all, nodes) == {};
    } else {
      var x: (nat, nat) :| x in all;
      var rest: set<(nat, nat)> := all - {x};
      NodesAtSize(rest, nodes);
      assert NodesAt(all, nodes) == NodesAt(rest, nodes) + if x.0 < |nodes| then {nodes[x.0]} else {};
    }
  }

  lemma EligibleIff(c: NetworkConfig, ec: Changes, key: Checkpoint)
    ensures Eligible(c, ec, key) <==> Certified(c, ec, key)
  {
    SupportersCount(c.nodes, ec, key);
    var all := AtOrBelow(ec, key.seqNo);
    if |all| >= IntersectionQuorum(c) {
      assert QuorumOf(c, ec, all) && AllAtOrBelow(ec, all, key.seqNo);
    }
    if Certified(c, ec, key) {
      var q :| QuorumOf(c, ec, q) && AllAtOrBelow(ec, q, key.seqNo);
      SubsetSize(q, all);
    }
  }

  lemma SelectsIff(c: NetworkConfig, ec: Changes, s: nat, entry: SetEntry)
    ensures Selects(c, ec, s, entry) <==> ConditionA(c, ec, s, entry)
  {
    var a1, a2 := A1Votes(ec, s, entry), A2Votes(ec, s, entry);
    hide A1Vote;
    hide A2Vote;
    if Selects(c, ec, s, entry) {
      assert QuorumOf(c, ec, a1) && AllA1(ec, a1, s, entry);
      assert a2 <= ec.Keys && |a2| > c.f && AllA2(ec, a2, s, entry);
    }
    if ConditionA(c, ec, s, entry) {
      var q :| QuorumOf(c, ec, q) && AllA1(ec, q, s, entry);
      SubsetSize(q, a1);
      var q2 :| q2 <= ec.Keys && |q2| > c.f && AllA2(ec, q2, s, entry);
      SubsetSize(q2, a2);
    }
  }

  lemma BVotesIff(c: NetworkConfig, ec: Changes, s: nat)
    ensures |BVotes(ec, s)| >= IntersectionQuorum(c) <==> ConditionB(c, ec, s)
  {
    var all := BVotes(ec, s);
    if |all| >= IntersectionQuorum(c) {
      assert QuorumOf(c, ec, all) && AllB(ec, all, s);
    }
    if ConditionB(c, ec, s) {
      var q :| QuorumOf(c, ec, q) && AllB(ec, q, s);
      SubsetSize(q, all);
    }
  }

  lemma {:induction false} FirstSelectedIff(c: NetworkConfig, nodes: seq<NodeId>, ec: Changes, s: nat)
    ensures FirstSelected(c, nodes, ec, s).None? <==>
            forall i :: i in nodes && i in ec && s in ec[i].pSet ==> !Selects(c, ec, s, ec[i].pSet[s])
    ensures FirstSelected(c, nodes, ec, s).Some? ==>
            exists i :: i in nodes && i in ec && s in ec[i].pSet && ec[i].pSet[s] == FirstSelected(c, nodes, ec, s).value
                        && Selects(c, ec, s, ec[i].pSet[s])
  {
    hide Selects;
    if nodes != [] {
      FirstSelectedIff(c, nodes[1..], ec, s);
      assert forall i :: i in nodes <==> i == nodes[0] || i in nodes[1..];
    }
  }

  lemma CarryIsRight(c: NetworkConfig, ec: Changes, s: nat)
    ensures CarryAt(c, ec, s).Carried? ==> AdmitsAt(c, ec, s, CarryAt(c, ec, s).digest)
    ensures !CarryAt(c, ec, s).Carried? ==> forall d :: !AdmitsAt(c, ec, s, d)
    ensures CarryAt(c, ec, s).Nothing? ==> ConditionB(c, ec, s)
    ensures CarryAt(c, ec, s).Undecided? <==> !DecidedAt(c, ec, s)
  {
    hide Selects;
    hide ConditionA;
    hide ConditionB;
    FirstSelectedIff(c, c.nodes, ec, s);
    BVotesIff(c, ec, s);
    forall i | i in ec && s in ec[i].pSet
      ensures Selects(c, ec, s, ec[i].pSet[s]) <==> ConditionA(c, ec, s, ec[i].pSet[s])
    {
      SelectsIff(c, ec, s, ec[i].pSet[s]);
    }
  }

  lemma AnyCarriedIff(c: NetworkConfig, ec: Changes, start: nat)
    ensures AnyCarried(c, ec, start, Window(c)) <==> !NoneAdmitted(c, ec, start)
  {
    hide CarryAt;
    hide AdmitsAt;
    if AnyCarried(c, ec, start, Window(c)) {
      var s :| start < s <= start + Window(c) && CarryAt(c, ec, s).Carried?;
      CarryIsRight(c, ec, s);
      assert AdmitsAt(c, ec, s, CarryAt(c, ec, s).digest);
    } else {
      forall s, d | start < s <= start + Window(c) ensures !AdmitsAt(c, ec, s, d) {
        CarryIsRight(c, ec, s);
        assert !CarryAt(c, ec, s).Carried?;
      }
    }
  }

  lemma DigestsAreRight(c: NetworkConfig, ec: Changes, start: nat)
    ensures DigestsAt(c, ec, start).None? <==> !WindowDecided(c, ec, start)
    ensures DigestsAt(c, ec, start).Some? ==> RightDigests(c, ec, start, DigestsAt(c, ec, start).value)
  {
    hide CarryAt;
    hide AdmitsAt;
    hide ConditionB;
    hide DecidedAt;
    AnyCarriedIff(c, ec, start);
    hide AnyCarried;
    hide NoneAdmitted;
    forall s: nat ensures CarryAt(c, ec, s).Undecided? <==> !DecidedAt(c, ec, s) {
      CarryIsRight(c, ec, s);
    }
    if AllDecided(c, ec, start, Window(c)) {
      var digests := CarriedDigests(c, ec, start, Window(c));
      forall i | 0 <= i < |digests| ensures RightAt(c, ec, start + 1 + i, digests[i]) {
        var s := start + 1 + i;
        CarryIsRight(c, ec, s);
        assert !CarryAt(c, ec, s).Undecided? && digests[i] == CarryDigest(CarryAt(c, ec, s));
      }
    }
  }

  lemma CertifiedIsNamed(c: NetworkConfig, ec: Changes, key: Checkpoint)
    requires Certified(c, ec, key)
    ensures exists i :: i in c.nodes && i in ec
  {
    var p :| p in PlacesNamed(c.nodes, ec, key);
    assert c.nodes[p.0] in c.nodes && c.nodes[p.0] in ec;
  }

  lemma ConfigIsRight(c: NetworkConfig, leaders: seq<NodeId>, ec: Changes, start: Checkpoint)
    requires GreatestCertified(c, ec, start)
    ensures Answers(c, leaders, ec, ConfigAt(c, leaders, ec, start))
    ensures WindowDecided(c, ec, start.seqNo) ==> ConfigAt(c, leaders, ec, start).Chosen?
    ensures ConfigAt(c, leaders, ec, start).Chosen? ==> ConfigAt(c, leaders, ec, start).config.startingCheckpoint == start
  {
    hide Certified;
    hide WindowDecided;
    hide RightDigests;
    hide DigestsAt;
    DigestsAreRight(c, ec, start.seqNo);
    CertifiedIsNamed(c, ec, start);
    forall e | AllFor(ec, e) ensures NewEpochNumber(c.nodes, ec) == e {
      SameNumber(c.nodes, ec, e);
    }
  }

  /** The walk ends at the greatest certified checkpoint, if no number has two. */
  lemma ScanIsRight(c: NetworkConfig, ec: Changes, order: seq<Checkpoint>)
    requires IsOrder(c, ec, order)
    ensures
      match ScanInOrder(c, ec, order)
      case Clash => !OneValueEach(c, ec)
      case Best(None) => forall k :: !Certified(c, ec, k)
      case Best(Some(b)) => GreatestCertified(c, ec, b)
  {
    hide Eligible;
    hide Certified;
    hide Supporters;
    ScanFindsGreatest(c, ec, order);
    forall k ensures Eligible(c, ec, k) <==> Certified(c, ec, k) {
      EligibleIff(c, ec, k);
    }
    forall k | Eligible(c, ec, k) ensures k in order {
      EligibleIsNamed(c, ec, k);
    }
  }

  /** Whatever order the table is walked in, the outcome is what the messages call for. */
  lemma AnswersInOrder(c: NetworkConfig, leaders: seq<NodeId>, ec: Changes, order: seq<Checkpoint>)
    requires IsOrder(c, ec, order)
    ensures Answers(c, leaders, ec, OutcomeInOrder(c, leaders, ec, order))
    ensures forall k :: GreatestCertified(c, ec, k) && OneValueEach(c, ec) && WindowDecided(c, ec, k.seqNo) ==>
                          var r := OutcomeInOrder(c, leaders, ec, order); r.Chosen? && r.config.startingCheckpoint == k
  {
    hide IsOrder;
    hide Certified;
    hide WindowDecided;
    hide RightConfig;
    ScanIsRight(c, ec, order);
    var scan := ScanInOrder(c, ec, order);
    if scan.Best? && scan.best.Some? {
      ConfigIsRight(c, leaders, ec, scan.best.value);
    }
  }

  // ---------------------------------------------------------------- support of a checkpoint

  lemma {:induction false} NamedOnce(checkpoints: seq<Checkpoint>, node: NodeId, key: Checkpoint)
    requires DistinctCheckpoints(checkpoints)
    ensures Named(checkpoints, node, key) == if key in checkpoints then [node] else []
  {
    if checkpoints != [] {
      var init, last := Init(checkpoints), Last(checkpoints);
      NamedOnce(init, node, key);
      assert checkpoints == init + [last];
      if last == key && key in init {
        assert false;
      }
    }
  }

  /** When no message names a checkpoint number twice, supporters are distinct nodes that name it. */
  lemma {:induction false} SupportersDistinct(nodes: seq<NodeId>, ec: Changes, key: Checkpoint)
    requires forall i, j :: 0 <= i < j < |nodes| ==> nodes[i] != nodes[j]
    requires forall i :: i in ec ==> DistinctCheckpoints(ec[i].underlying.checkpoints)
    ensures forall i, j :: 0 <= i < j < |Supporters(nodes, ec, key)| ==>
                             Supporters(nodes, ec, key)[i] != Supporters(nodes, ec, key)[j]
    ensures forall x :: x in Supporters(nodes, ec, key) ==>
                          x in nodes && x in ec && key in ec[x].underlying.checkpoints
  {
    if nodes != [] {
      var init, last := Init(nodes), Last(nodes);
      SupportersDistinct(init, ec, key);
      assert nodes == init + [last];
      if last in ec {
        NamedOnce(ec[last].underlying.checkpoints, last, key);
      }
      assert last !in init;
    }
  }

  /** Every message names each checkpoint number once, and correct nodes agree on values. */
  ghost predicate HonestCheckpoints(ec: Changes, faulty: set<NodeId>) {
    && (forall i :: i in ec ==> DistinctCheckpoints(ec[i].underlying.checkpoints))
    && (forall i, j, x, y | i in ec && j in ec && i !in faulty && j !in faulty ::
          x in ec[i].underlying.checkpoints && y in ec[j].underlying.checkpoints && x.seqNo == y.seqNo ==>
            x.value == y.value)
  }

  lemma EligibleHasCorrectSupport(c: NetworkConfig, ec: Changes, faulty: set<NodeId>, key: Checkpoint)
    returns (n: NodeId)
    requires FaultBound(c, faulty) && Eligible(c, ec, key)
    requires forall i :: i in ec ==> DistinctCheckpoints(ec[i].underlying.checkpoints)
    ensures n !in faulty && n in ec && key in ec[n].underlying.checkpoints
  {
    var list := Supporters(c.nodes, ec, key);
    SupportersDistinct(c.nodes, ec, key);
    DistinctSize(list);
    var support := set i | 0 <= i < |list| :: list[i];
    n := SomeCorrect(c, faulty, support);
  }

  /** With at most f faulty nodes and agreeing correct ones, no two values are eligible together, so
      the panic is unreachable. */
  lemma PanicUnreachable(c: NetworkConfig, ec: Changes, faulty: set<NodeId>)
    requires FaultBound(c, faulty) && HonestCheckpoints(ec, faulty)
    ensures Unambiguous(c, ec)
  {
    forall k1, k2 ensures !Conflicting(c, ec, k1, k2) {
      if Conflicting(c, ec, k1, k2) {
        var i := EligibleHasCorrectSupport(c, ec, faulty, k1);
        var j := EligibleHasCorrectSupport(c, ec, faulty, k2);
        assert false;
      }
    }
  }

  /** Without that, one faulty message suffices to make up the support of f+1 = 2 nodes. */
  lemma RepeatedMentionFakesSupport(key: Checkpoint)
    ensures
      var c := NetworkConfig([0, 1, 2, 3], 1, 1, 1, 10);
      var m := EpochChange(1, [key, key], [], []);
      var ec: Changes := map[3 := Parsed(m)];
      c.Valid() && Parseable(m) && |Supporters(c.nodes, ec, key)| == SomeCorrectQuorum(c)
  {
    hide Supporters;
    hide Named;
    hide Parsed;
    hide Parseable;
    var m := EpochChange(1, [key, key], [], []);
    TwiceParses(key);
    OnlyLastSupports(map[3 := Parsed(m)], key);
    TwiceNamed(3, key);
  }

  lemma TwiceParses(key: Checkpoint)
    ensures var m := EpochChange(1, [key, key], [], []); Parseable(m) && Parsed(m).underlying == m
  {
  }

  lemma TwiceNamed(node: NodeId, key: Checkpoint)
    ensures Named([key, key], node, key) == [node, node]
  {
    assert Init([key, key]) == [key] && Init([key]) == [];
    assert Named([key], node, key) == [node];
  }

  lemma OnlyLastSupports(ec: Changes, key: Checkpoint)
    requires ec.Keys == {3}
    ensures Supporters([0, 1, 2, 3], ec, key) == Named(ec[3].underlying.checkpoints, 3, key)
  {
    hide Named;
    NoSupport([0, 1, 2], ec, key);
    assert Init([0, 1, 2, 3]) == [0, 1, 2] && Last([0, 1, 2, 3]) == 3;
  }

  lemma {:induction false} NoSupport(nodes: seq<NodeId>, ec: Changes, key: Checkpoint)
    requires forall n :: n in nodes ==> n !in ec
    ensures Supporters(nodes, ec, key) == []
  {
    if nodes != [] {
      NoSupport(Init(nodes), ec, key);
    }
  }

  // ---------------------------------------------------------------- what a new epoch must carry over

  predicate Covers(c: NetworkConfig, k: NewEpochConfig, s: nat) {
    k.startingCheckpoint.seqNo < s <= k.startingCheckpoint.seqNo + Window(c)
  }

  predicate Carries(k: NewEpochConfig, s: nat, d: Digest) {
    && k.startingCheckpoint.seqNo < s <= k.startingCheckpoint.seqNo + |k.finalPreprepares|
    && k.finalPreprepares[s - k.startingCheckpoint.seqNo - 1] == d
  }

  /** Every correct member of `q` whose log still holds `s` reports it prepared, with digest `d` if in
      epoch `e`, and otherwise in a later epoch. */
  ghost predicate ReportsPrepared(ec: Changes, faulty: set<NodeId>, q: set<NodeId>, s: nat, e: nat, d: Digest) {
    forall i :: i in ec && i in q && i !in faulty && ec[i].lowWatermark < s ==>
                  && s in ec[i].pSet
                  && ec[i].pSet[s].epoch >= e
                  && (ec[i].pSet[s].epoch == e ==> ec[i].pSet[s].digest == d)
  }

  /** Correct nodes preprepared nothing else at `s` after epoch `e`. */
  ghost predicate LaterPreprepares(ec: Changes, faulty: set<NodeId>, s: nat, e: nat, d: Digest) {
    forall i, e' :: i in ec && i !in faulty && e' in Views(ec[i].qSet, s) && e' > e ==> Views(ec[i].qSet, s)[e'] == d
  }

  lemma PreparedSelected(c: NetworkConfig, ec: Changes, faulty: set<NodeId>, q: set<NodeId>, s: nat, e: nat, d: Digest)
    requires FaultBound(c, faulty) && ec.Keys <= NodeSet(c) && IsQuorum(c, q)
    requires ReportsPrepared(ec, faulty, q, s, e, d) && LaterPreprepares(ec, faulty, s, e, d)
    ensures CarryAt(c, ec, s) == Carried(d) || CarryAt(c, ec, s).Undecided?
  {
    match CarryAt(c, ec, s) {
      case Undecided =>
      case Nothing =>
        var n := SharedCorrect(c, faulty, BVotes(ec, s), q);
        assert false;
      case Carried(digest) =>
        var entry := FirstSelected(c, c.nodes, ec, s).value;
        assert Selects(c, ec, s, entry);
        var n := SharedCorrect(c, faulty, A1Votes(ec, s, entry), q);
        assert ec[n].pSet[s].epoch >= e;
        if entry.epoch > e {
          var w := SomeCorrect(c, faulty, A2Votes(ec, s, entry));
          assert Vouches(Views(ec[w].qSet, s), entry);
          var e' :| e' in Views(ec[w].qSet, s) && e' >= entry.epoch && Views(ec[w].qSet, s)[e'] == entry.digest;
        }
    }
  }

  /** One step of the view change: if a quorum prepared `d` at `s` in epoch `e` and says so, and later
      epochs kept to `d`, then every configuration that covers `s` carries `d` there: not a null
      digest, not another one, and not an empty list. */
  lemma PreparedCarriedOver(c: NetworkConfig, leaders: seq<NodeId>, ec: Changes, order: seq<Checkpoint>,
                            faulty: set<NodeId>, q: set<NodeId>, s: nat, e: nat, d: Digest)
    requires FaultBound(c, faulty) && ec.Keys <= NodeSet(c) && IsQuorum(c, q)
    requires ReportsPrepared(ec, faulty, q, s, e, d) && LaterPreprepares(ec, faulty, s, e, d)
    requires OutcomeInOrder(c, leaders, ec, order).Chosen?
    ensures
      var k := OutcomeInOrder(c, leaders, ec, order).config;
      && (Covers(c, k, s) <==> Carries(k, s, d))
      && (Covers(c, k, s) ==> |k.finalPreprepares| == Window(c))
  {
    hide ScanInOrder;
    hide ReportsPrepared;
    hide LaterPreprepares;
    hide FirstSelected;
    var k := OutcomeInOrder(c, leaders, ec, order).config;
    var start := k.startingCheckpoint.seqNo;
    if Covers(c, k, s) {
      PreparedSelected(c, ec, faulty, q, s, e, d);
      assert AllDecided(c, ec, start, Window(c));
      assert CarryAt(c, ec, s).Carried?;
      assert CarriedDigests(c, ec, start, Window(c))[s - start - 1] == CarryDigest(CarryAt(c, ec, s));
    }
  }

  /** Conditions A and B admit nothing but `d` at `s`. */
  ghost predicate OnlyAdmits(c: NetworkConfig, ec: Changes, s: nat, d: Digest) {
    && |BVotes(ec, s)| < IntersectionQuorum(c)
    && forall i :: i in ec && s in ec[i].pSet && Selects(c, ec, s, ec[i].pSet[s]) ==> ec[i].pSet[s].digest == d
  }

  lemma {:induction false} NoneSelected(c: NetworkConfig, nodes: seq<NodeId>, ec: Changes, s: nat)
    requires forall i :: i in ec ==> s !in ec[i].pSet
    ensures FirstSelected(c, nodes, ec, s).None?
  {
    if nodes != [] {
      NoneSelected(c, nodes[1..], ec, s);
    }
  }

  lemma {:induction false} SelectedFrom(c: NetworkConfig, nodes: seq<NodeId>, ec: Changes, s: nat)
    requires FirstSelected(c, nodes, ec, s).Some?
    ensures
      var entry := FirstSelected(c, nodes, ec, s).value;
      Selects(c, ec, s, entry) && exists i :: i in ec && s in ec[i].pSet && ec[i].pSet[s] == entry
  {
    if !(nodes[0] in ec && s in ec[nodes[0]].pSet && Selects(c, ec, s, ec[nodes[0]].pSet[s])) {
      SelectedFrom(c, nodes[1..], ec, s);
    }
  }

  /** What alone is admitted is what a chosen configuration carries. */
  lemma AdmittedCarried(c: NetworkConfig, leaders: seq<NodeId>, ec: Changes, order: seq<Checkpoint>, s: nat, d: Digest)
    requires OnlyAdmits(c, ec, s, d) && OutcomeInOrder(c, leaders, ec, order).Chosen?
    requires Covers(c, OutcomeInOrder(c, leaders, ec, order).config, s)
    ensures
      var k := OutcomeInOrder(c, leaders, ec, order).config;
      Carries(k, s, d) && |k.finalPreprepares| == Window(c)
  {
    hide ScanInOrder;
    hide FirstSelected;
    hide Selects;
    var k := OutcomeInOrder(c, leaders, ec, order).config;
    var start := k.startingCheckpoint.seqNo;
    assert AllDecided(c, ec, start, Window(c));
    assert !CarryAt(c, ec, s).Undecided?;
    SelectedFrom(c, c.nodes, ec, s);
    assert CarryAt(c, ec, s) == Carried(d);
    assert CarriedDigests(c, ec, start, Window(c))[s - start - 1] == CarryDigest(CarryAt(c, ec, s));
    assert AnyCarried(c, ec, start, Window(c));
  }

  /** The window of every configuration reaches `s` if the correct members of some quorum report low
      watermarks from which `s` is within one window. */
  lemma WindowReaches(c: NetworkConfig, leaders: seq<NodeId>, ec: Changes, order: seq<Checkpoint>,
                      faulty: set<NodeId>, q: set<NodeId>, s: nat)
    requires FaultBound(c, faulty) && ec.Keys <= NodeSet(c) && IsQuorum(c, q)
    requires forall i :: i in ec && i in q && i !in faulty ==> s <= ec[i].lowWatermark + Window(c)
    requires OutcomeInOrder(c, leaders, ec, order).Chosen?
    ensures s <= OutcomeInOrder(c, leaders, ec, order).config.startingCheckpoint.seqNo + Window(c)
  {
    ScanFindsGreatest(c, ec, order);
    var start := OutcomeInOrder(c, leaders, ec, order).config.startingCheckpoint;
    var n := SharedCorrect(c, faulty, AtOrBelow(ec, start.seqNo), q);
  }
}
