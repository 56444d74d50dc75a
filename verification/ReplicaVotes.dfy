/** One correct replica across epochs: what it logs, what it has said, and how the two stay in step. */
module ReplicaVotes {
  import opened Types
  import opened EpochChanges
  import opened Intervals
  import opened NewEpochConfigs
  import opened WriteAheadLog

  /** A digest that the replica preprepared (a Q entry) or prepared (a P entry) in an epoch. */
  datatype Vote = Vote(epoch: nat, seqNo: nat, digest: Digest)

  /** Waiting for a new epoch; having echoed its configuration; having sent ready for one; having
      delivered it; working in it. */
  datatype Phase = Changing | Echoed | Readied | Delivered | Active

  datatype Replica = Replica(
    log: Log,
    floor: nat,                       // the checkpoint of the last truncation
    lastCheckpoint: nat,              // the low watermark of the commit state
    pending: bool,                    // the next checkpoint was requested and has no result yet
    epoch: nat,
    phase: Phase,
    echoed: Option<NewEpochConfig>,   // what it echoed in this epoch
    echoes: set<NewEpochConfig>,      // every configuration it ever echoed
    readies: set<NewEpochConfig>,     // every configuration it ever sent ready for
    anchors: set<NewEpochConfig>,     // those of them it readied on a quorum of echoes
    changes: map<nat, EpochChange>,   // every epoch change it ever sent, by new epoch
    preprepares: set<Vote>,           // every Q entry it ever wrote
    prepares: set<Vote>,              // every P entry it ever wrote
    delivered: set<Vote>,             // every digest it committed on delivering an epoch
    led: set<NewEpochConfig>,         // every configuration it offered as the leader of an epoch
    adopted: set<NewEpochConfig>)     // every configuration the network delivered to it

  function Initial(value: nat, config: EpochConfig): Replica {
    Replica([CEntry(0, value), FEntry(config)], 0, 0, false, config.number, Changing, None, {}, {}, {}, map[], {}, {}, {},
            {}, {})
  }

  // ---------------------------------------------------------------- logging an echoed configuration

  function StopAt(c: NetworkConfig, r: Replica): nat {
    r.lastCheckpoint + Window(c)
  }

  function End(k: NewEpochConfig): nat {
    k.startingCheckpoint.seqNo + |k.finalPreprepares|
  }

  /** The log after the N entry of the new epoch and its first `n` digests were appended. */
  function EchoLog(c: NetworkConfig, log: Log, k: NewEpochConfig, stop: nat, batch: Digest -> seq<RequestAck>,
                   n: nat): Log
    requires n <= |k.finalPreprepares| && c.checkpointInterval > 0
  {
    if n == 0 then log + [NEntry(k.startingCheckpoint.seqNo + 1, k.config)]
    else
      var s := k.startingCheckpoint.seqNo + n;
      var d := k.finalPreprepares[n - 1];
      var before := EchoLog(c, log, k, stop, batch, n - 1);
      if d == NullDigest then before + [QEntry(s, NullDigest, [])]
      else if Aligned(s, c.checkpointInterval) && s < stop
      then before + [QEntry(s, d, batch(d))] + [NEntry(s + 1, k.config)]
      else before + [QEntry(s, d, batch(d))]
  }

  function CarriedVotes(k: NewEpochConfig, n: nat): set<Vote>
    requires n <= |k.finalPreprepares|
  {
    set i | 0 <= i < n :: Vote(k.config.number, k.startingCheckpoint.seqNo + 1 + i, k.finalPreprepares[i])
  }

  function ReadyLog(log: Log, k: NewEpochConfig, n: nat): Log
    requires n <= |k.finalPreprepares|
  {
    if n == 0 then log
    else ReadyLog(log, k, n - 1) + [PEntry(k.startingCheckpoint.seqNo + n, k.finalPreprepares[n - 1])]
  }

  /** An N entry for the interval block of `s` is in the log. */
  ghost predicate Opened(log: Log, ci: nat, s: nat)
    requires ci > 0
  {
    exists j :: 0 <= j < |log| && log[j].NEntry? && Block(log[j].seqNo, s, ci)
  }

  predicate HasN(log: Log, n: nat) {
    exists j :: 0 <= j < |log| && log[j].NEntry? && log[j].seqNo == n
  }

  /** The second interval of the carried-over digests has an N entry: echoing writes one after the
      last digest of the first interval unless that digest is null. */
  ghost predicate SecondIntervalOpened(c: NetworkConfig, log: Log, k: NewEpochConfig)
    requires c.checkpointInterval > 0
  {
    |k.finalPreprepares| > c.checkpointInterval ==>
      || k.finalPreprepares[c.checkpointInterval - 1] != NullDigest
      || HasN(log, k.startingCheckpoint.seqNo + c.checkpointInterval + 1)
  }

  /** The entries of the digest at place `i`: its Q entry with the batch's requests, and the N entry of the
      next interval if the digest ends one below `stop` and is not null. */
  predicate EchoEntry(c: NetworkConfig, k: NewEpochConfig, stop: nat, batch: Digest -> seq<RequestAck>, i: nat, x: Entry)
    requires i < |k.finalPreprepares| && c.checkpointInterval > 0
  {
    var s, d := k.startingCheckpoint.seqNo + 1 + i, k.finalPreprepares[i];
    || x == QEntry(s, d, if d == NullDigest then [] else batch(d))
    || (x == NEntry(s + 1, k.config) && d != NullDigest && Aligned(s, c.checkpointInterval) && s < stop)
  }

  /** Echoing logs the N entry of the epoch and the entries of every digest, and nothing else. */
  lemma {:induction false} EchoLogExact(c: NetworkConfig, log: Log, k: NewEpochConfig, stop: nat,
                                        batch: Digest -> seq<RequestAck>, n: nat, x: Entry)
    requires n <= |k.finalPreprepares| && c.checkpointInterval > 0
    ensures x in EchoLog(c, log, k, stop, batch, n) <==>
            || x in log || x == NEntry(k.startingCheckpoint.seqNo + 1, k.config)
            || exists i :: 0 <= i < n && EchoEntry(c, k, stop, batch, i, x)
    ensures log <= EchoLog(c, log, k, stop, batch, n)
  {
    hide Aligned;
    if n > 0 {
      EchoLogExact(c, log, k, stop, batch, n - 1, x);
      assert EchoEntry(c, k, stop, batch, n - 1, x) ||
             forall i :: 0 <= i < n && EchoEntry(c, k, stop, batch, i, x) ==> i < n - 1;
    }
  }

  /** Sending ready on echoes logs a P entry for every digest, in order, and nothing else. */
  lemma {:induction false} ReadyLogExact(log: Log, k: NewEpochConfig, n: nat)
    requires n <= |k.finalPreprepares|
    ensures ReadyLog(log, k, n) == log + seq(n, i requires 0 <= i < n =>
                                                PEntry(k.startingCheckpoint.seqNo + 1 + i, k.finalPreprepares[i]))
  {
    if n > 0 {
      ReadyLogExact(log, k, n - 1);
    }
  }

  // ---------------------------------------------------------------- committing what was echoed

  predicate Marks(entry: Entry, e: nat) {
    entry.ECEntry? && entry.epochNumber >= e
  }

  /** An EC entry of epoch `e` precedes position `i`. */
  ghost predicate Begun(log: Log, e: nat, i: nat)
    requires i <= |log|
  {
    exists j :: 0 <= j < i && Marks(log[j], e)
  }

  /** The Q entries after the EC entry of epoch `e`. */
  ghost function AfterChange(log: Log, e: nat): set<Vote> {
    set i | 0 <= i < |log| && log[i].QEntry? && Begun(log, e, i) :: Vote(e, log[i].seqNo, log[i].digest)
  }

  function Above(votes: set<Vote>, low: nat): set<Vote> {
    set v | v in votes && v.seqNo > low
  }

  lemma AfterChangeAppend(log: Log, entry: Entry, e: nat)
    ensures AfterChange(log + [entry], e) ==
            AfterChange(log, e) + if entry.QEntry? && Begun(log, e, |log|) then {Vote(e, entry.seqNo, entry.digest)} else {}
    ensures Begun(log + [entry], e, |log| + 1) <==> Begun(log, e, |log|) || Marks(entry, e)
  {
    var after := log + [entry];
    forall i | 0 <= i < |log| ensures after[i] == log[i] && (Begun(after, e, i) <==> Begun(log, e, i)) {
      forall j | 0 <= j < i ensures after[j] == log[j] {
      }
    }
    forall j | 0 <= j < |log| ensures after[j] == log[j] {
    }
    assert Begun(after, e, |log|) <==> Begun(log, e, |log|);
    assert after[|log|] == entry;
    forall v | v in AfterChange(log, e) ensures v in AfterChange(after, e) {
      var i :| 0 <= i < |log| && log[i].QEntry? && Begun(log, e, i) && v == Vote(e, log[i].seqNo, log[i].digest);
      assert after[i].QEntry? && Begun(after, e, i);
    }
  }

  /** Delivery walks the log and commits, above the last checkpoint, what follows the epoch's EC entry. */
  method CommitLogged(log: Log, e: nat, low: nat) returns (committed: set<Vote>)
    ensures committed == Above(AfterChange(log, e), low)
  {
    committed := {};
    var currentEpoch := false;
    for i := 0 to |log|
      invariant currentEpoch <==> Begun(log[..i], e, i)
      invariant committed == Above(AfterChange(log[..i], e), low)
    {
      AfterChangeAppend(log[..i], log[i], e);
      assert log[..i + 1] == log[..i] + [log[i]];
      match log[i] {
        case QEntry(s, d, _) =>
          if currentEpoch && s > low {
            committed := committed + {Vote(e, s, d)};
          }
        case ECEntry(number) =>
          if number >= e {
            currentEpoch := true;
          }
        case _ =>
      }
    }
    assert log[..|log|] == log;
  }

  // ---------------------------------------------------------------- steps of the replica

  /** No epoch change starts while a checkpoint is pending. */
  ghost predicate BeginEpochChange(c: NetworkConfig, r: Replica, r': Replica, e: nat) {
    && e > r.epoch && !r.pending
    && EpochChangeOf(r.log, e).Some?
    && r' == r.(log := r.log + [ECEntry(e)], epoch := e, phase := Changing, echoed := None,
                changes := r.changes[e := EpochChangeOf(r.log, e).value])
  }

  function LedState(r: Replica, k: NewEpochConfig): Replica {
    r.(led := r.led + {k})
  }

  /** The leader of an epoch constructs one configuration for it and offers that to everyone. */
  ghost predicate LeadConfig(r: Replica, r': Replica, k: NewEpochConfig) {
    && r.phase == Changing && k.config.number == r.epoch && r.epoch in r.changes
    && (forall k' :: k' in r.led ==> k'.config.number != r.epoch)
    && r' == LedState(r, k)
  }

  function NoRequests(d: Digest): seq<RequestAck> {
    []
  }

  function EchoedState(c: NetworkConfig, r: Replica, k: NewEpochConfig,
                       batch: Digest -> seq<RequestAck> := NoRequests): Replica
    requires c.checkpointInterval > 0
  {
    r.(log := EchoLog(c, r.log, k, StopAt(c, r), batch, |k.finalPreprepares|),
       phase := Echoed, echoed := Some(k), echoes := r.echoes + {k},
       preprepares := r.preprepares + CarriedVotes(k, |k.finalPreprepares|))
  }

  ghost predicate EchoConfig(c: NetworkConfig, r: Replica, r': Replica, k: NewEpochConfig,
                             batch: Digest -> seq<RequestAck>)
  {
    && c.checkpointInterval > 0
    && r.phase == Changing && k.config.number == r.epoch && r.epoch in r.changes
    && Aligned(k.startingCheckpoint.seqNo, c.checkpointInterval)
    && k.startingCheckpoint.seqNo <= r.lastCheckpoint
    && |k.finalPreprepares| <= Window(c)
    && SecondIntervalOpened(c, r.log, k)
    && r' == EchoedState(c, r, k, batch)
  }

  function ReadiedState(r: Replica, k: NewEpochConfig): Replica {
    r.(log := ReadyLog(r.log, k, |k.finalPreprepares|), phase := Readied,
       readies := r.readies + {k}, anchors := r.anchors + {k},
       prepares := r.prepares + CarriedVotes(k, |k.finalPreprepares|))
  }

  /** On an echo quorum the replica prepares every digest of the configuration. */
  ghost predicate ReadyOnEchoes(c: NetworkConfig, r: Replica, r': Replica, k: NewEpochConfig) {
    && c.checkpointInterval > 0
    && r.phase == Echoed && k.config.number == r.epoch
    && (forall s :: r.floor < s && k.startingCheckpoint.seqNo < s <= End(k) ==> Opened(r.log, c.checkpointInterval, s))
    && r' == ReadiedState(r, k)
  }

  function JoinedState(r: Replica, k: NewEpochConfig): Replica {
    r.(phase := Readied, readies := r.readies + {k})
  }

  /** On f+1 ready messages it joins them without writing P entries. */
  ghost predicate ReadyOnReadies(r: Replica, r': Replica, k: NewEpochConfig) {
    && r.phase == Echoed && k.config.number == r.epoch
    && r' == JoinedState(r, k)
  }

  ghost function DeliveredState(r: Replica, k: NewEpochConfig): Replica {
    r.(phase := Delivered, delivered := r.delivered + Above(AfterChange(r.log, r.epoch), r.lastCheckpoint),
       adopted := r.adopted + {k})
  }

  /** On a quorum of ready messages it commits the Q entries of this epoch in its own log. */
  ghost predicate DeliverConfig(r: Replica, r': Replica, k: NewEpochConfig) {
    && r.phase == Readied && k.config.number == r.epoch
    && r' == DeliveredState(r, k)
  }

  function StartedState(r: Replica): Replica {
    r.(phase := Active)
  }

  /** The epoch starts once the last carried-over sequence is checkpointed. */
  ghost predicate StartEpoch(r: Replica, r': Replica) {
    && r.phase == Delivered && r.echoed.Some? && r.lastCheckpoint == End(r.echoed.value)
    && r' == StartedState(r)
  }

  function OpenedState(r: Replica, n: nat, config: EpochConfig): Replica {
    r.(log := r.log + [NEntry(n, config)])
  }

  ghost predicate OpenInterval(c: NetworkConfig, r: Replica, r': Replica, n: nat, config: EpochConfig) {
    && c.checkpointInterval > 0
    && r.phase == Active && config.number == r.epoch
    && n >= 1 && Aligned(n - 1, c.checkpointInterval) && n - 1 < StopAt(c, r)
    && r' == OpenedState(r, n, config)
  }

  function ProposedState(r: Replica, s: nat, d: Digest, requests: seq<RequestAck> := []): Replica {
    r.(log := r.log + [QEntry(s, d, requests)], preprepares := r.preprepares + {Vote(r.epoch, s, d)})
  }

  /** A sequence past the carried-over digests accepts one batch per epoch. */
  ghost predicate Preprepare(c: NetworkConfig, r: Replica, r': Replica, s: nat, d: Digest, requests: seq<RequestAck>) {
    && c.checkpointInterval > 0
    && r.phase == Active && r.echoed.Some? && s > End(r.echoed.value)
    && s > r.lastCheckpoint && Opened(r.log, c.checkpointInterval, s)
    && (forall v :: v in r.preprepares && v.epoch == r.epoch ==> v.seqNo != s)
    && r' == ProposedState(r, s, d, requests)
  }

  function PreparedState(r: Replica, s: nat, d: Digest): Replica {
    r.(log := r.log + [PEntry(s, d)], prepares := r.prepares + {Vote(r.epoch, s, d)})
  }

  /** It prepares at most once per epoch, and only what it preprepared. */
  ghost predicate Prepare(c: NetworkConfig, r: Replica, r': Replica, s: nat, d: Digest) {
    && c.checkpointInterval > 0
    && r.phase == Active && Vote(r.epoch, s, d) in r.preprepares
    && s > r.lastCheckpoint && Opened(r.log, c.checkpointInterval, s)
    && (forall v :: v in r.prepares && v.epoch == r.epoch ==> v.seqNo != s)
    && r' == PreparedState(r, s, d)
  }

  function RequestedState(r: Replica): Replica {
    r.(pending := true)
  }

  /** Only committing, on delivery or in the epoch, completes an interval. */
  ghost predicate RequestCheckpoint(r: Replica, r': Replica) {
    && (r.phase == Delivered || r.phase == Active) && !r.pending
    && r' == RequestedState(r)
  }

  function CheckpointedState(c: NetworkConfig, r: Replica, value: nat): Replica {
    var next := r.lastCheckpoint + c.checkpointInterval;
    r.(log := r.log + [CEntry(next, value)], lastCheckpoint := next, pending := false)
  }

  ghost predicate TakeCheckpoint(c: NetworkConfig, r: Replica, r': Replica, value: nat) {
    r.pending && r' == CheckpointedState(c, r, value)
  }

  /** A stable checkpoint that the replica has taken itself is a truncation point. */
  ghost predicate TruncateLog(c: NetworkConfig, r: Replica, r': Replica, low: nat) {
    && low >= r.floor
    && (exists i :: 0 <= i < |r.log| && r.log[i].CEntry? && r.log[i].seqNo == low)
    && r' == r.(log := Truncated(r.log, low), floor := low)
  }

  // ---------------------------------------------------------------- the invariant

  ghost predicate CheckpointsBetween(log: Log, low: nat, high: nat) {
    && (forall i :: 0 <= i < |log| && log[i].CEntry? ==> low <= log[i].seqNo <= high)
    && (exists i :: 0 <= i < |log| && log[i].CEntry?)
  }

  ghost predicate IntervalsBelow(log: Log, top: nat) {
    forall i :: 0 <= i < |log| && log[i].NEntry? ==> log[i].seqNo <= top
  }

  ghost predicate EpochsUpTo(log: Log, e: nat) {
    forall i :: 0 <= i < |log| && EpochOf(log[i]).Some? ==> EpochOf(log[i]).value <= e
  }

  /** An epoch was opened after every checkpoint of the log. */
  ghost predicate FreshTag(log: Log) {
    forall i :: 0 <= i < |log| && log[i].CEntry? ==> Tag(log[i..]).Some?
  }

  function VoteAt(log: Log, i: nat): Vote
    requires i < |log| && IsVote(log[i])
  {
    Vote(TagOr(log[..i], 0), log[i].seqNo, log[i].digest)
  }

  /** Every Q entry of the log is a vote in `q`, every P entry one in `p`. */
  ghost predicate Voted(log: Log, q: set<Vote>, p: set<Vote>) {
    forall i :: 0 <= i < |log| && IsVote(log[i]) ==> VoteAt(log, i) in if log[i].QEntry? then q else p
  }

  predicate Supersedes(x: Vote, v: Vote) {
    x.seqNo == v.seqNo && (x.epoch > v.epoch || x == v)
  }

  /** The last P entry for the sequence number of `v` is `v` itself or of a later epoch. */
  ghost predicate PLoggedAt(log: Log, v: Vote) {
    exists i :: 0 <= i < |log| && IsLastP(log, i) && Supersedes(VoteAt(log, i), v)
  }

  ghost predicate PLogged(log: Log, votes: set<Vote>, floor: nat) {
    forall v :: v in votes && v.seqNo > floor ==> PLoggedAt(log, v)
  }

  predicate Unready(r: Replica) {
    r.phase == Changing || r.phase == Echoed
  }

  /** What the votes say about the epochs they were cast in, and what it echoed in each. */
  ghost predicate VotesInOrder(r: Replica) {
    && (forall v :: v in r.preprepares ==> v.epoch <= r.epoch && (r.phase == Changing ==> v.epoch < r.epoch))
    && (forall v :: v in r.prepares ==> v.epoch <= r.epoch && (Unready(r) ==> v.epoch < r.epoch))
    && (forall v, w :: v in r.prepares && w in r.prepares && v.epoch == w.epoch && v.seqNo == w.seqNo ==> v == w)
    && (forall k :: k in r.echoes ==> k.config.number <= r.epoch && (r.phase == Changing ==> k.config.number < r.epoch))
    && (forall k, k' :: k in r.echoes && k' in r.echoes && k.config.number == k'.config.number ==> k == k')
    && (r.phase != Changing ==> r.echoed.Some? && r.echoed.value in r.echoes && r.echoed.value.config.number == r.epoch)
  }

  /** A Q entry comes from an echoed configuration of its epoch, or from a sequence beyond one. */
  ghost predicate VoteJustified(echoes: set<NewEpochConfig>, v: Vote) {
    exists k :: k in echoes && k.config.number == v.epoch && (Carries(k, v.seqNo, v.digest) || v.seqNo > End(k))
  }

  ghost predicate VotesJustified(r: Replica) {
    && (forall v :: v in r.preprepares ==> VoteJustified(r.echoes, v))
    && (forall k :: k in r.echoes ==> CarriedVotes(k, |k.finalPreprepares|) <= r.preprepares)
  }

  /** A P entry comes from a configuration readied on echoes, or from a sequence beyond the echoed one. */
  ghost predicate PrepareJustified(r: Replica, v: Vote) {
    || (exists k :: k in r.anchors && k.config.number == v.epoch && Carries(k, v.seqNo, v.digest))
    || (exists k :: k in r.echoes && k.config.number == v.epoch && v.seqNo > End(k))
  }

  ghost predicate PreparesJustified(r: Replica) {
    && (forall v :: v in r.prepares ==> PrepareJustified(r, v))
    && (forall k :: k in r.anchors ==> k in r.readies && CarriedVotes(k, |k.finalPreprepares|) <= r.prepares)
  }

  /** What was committed on delivery is what the replica had echoed in that epoch. */
  ghost predicate DeliveredJustified(r: Replica) {
    forall v :: v in r.delivered ==> exists k :: k in r.echoes && k.config.number == v.epoch && Carries(k, v.seqNo, v.digest)
  }

  /** Checkpoints are pending only where something was committed; an active epoch has checkpointed all
      that it carried over. */
  ghost predicate CheckpointsInv(r: Replica) {
    && (r.pending ==> r.phase == Delivered || r.phase == Active)
    && (r.phase == Active ==> r.echoed.Some? && r.lastCheckpoint >= End(r.echoed.value))
  }

  /** It offered one configuration per epoch, and works only in epochs that were delivered. */
  ghost predicate OffersInv(r: Replica) {
    && (forall k, k' :: k in r.led && k' in r.led && k.config.number == k'.config.number ==> k == k')
    && (r.phase == Delivered || r.phase == Active ==> exists k :: k in r.adopted && k.config.number == r.epoch)
  }

  /** The Q entry of `v` is in the log. */
  ghost predicate QLoggedAt(log: Log, v: Vote) {
    exists i :: 0 <= i < |log| && log[i].QEntry? && VoteAt(log, i) == v
  }

  ghost predicate QLogged(log: Log, votes: set<Vote>, floor: nat) {
    forall v :: v in votes && v.seqNo > floor ==> QLoggedAt(log, v)
  }

  /** An epoch change reports every Q entry above its low watermark. */
  ghost predicate Complete(preprepares: set<Vote>, e: nat, m: EpochChange) {
    m.checkpoints != [] && forall v :: v in preprepares && v.epoch < e && v.seqNo > Parsed(m).lowWatermark ==>
                                         SetEntry(v.epoch, v.seqNo, v.digest) in m.qSet
  }

  ghost predicate ReportsInv(r: Replica) {
    && QLogged(r.log, r.preprepares, r.floor)
    && forall e :: e in r.changes ==> Complete(r.preprepares, e, r.changes[e])
  }

  ghost predicate NoCheckpointAfter(log: Log, e: nat) {
    forall i :: 0 <= i < |log| && log[i].CEntry? ==> !Begun(log, e, i)
  }

  ghost predicate ChangesUpTo(log: Log, e: nat) {
    forall i :: 0 <= i < |log| && log[i].ECEntry? ==> log[i].epochNumber <= e
  }

  /** The log ends in an EC entry of epoch `e`, no checkpoint, and Q entries for exactly `votes`. */
  ghost predicate Tail(log: Log, e: nat, votes: set<Vote>) {
    Begun(log, e, |log|) && NoCheckpointAfter(log, e) && AfterChange(log, e) == votes
  }

  /** Until the epoch is delivered, the Q entries after its EC entry are those of the echoed configuration. */
  ghost predicate TailInv(r: Replica) {
    && ChangesUpTo(r.log, r.epoch)
    && (r.phase == Changing && r.epoch in r.changes ==> Tail(r.log, r.epoch, {}))
    && (r.phase == Echoed || r.phase == Readied ==>
          r.echoed.Some? && Tail(r.log, r.epoch, CarriedVotes(r.echoed.value, |r.echoed.value.finalPreprepares|)))
  }

  /** An epoch change reports what was prepared before it and still matters, and nothing that was not
      prepared or preprepared. */
  ghost predicate Faithful(ci: nat, prepares: set<Vote>, preprepares: set<Vote>, e: nat, m: EpochChange) {
    && ci > 0 && Parseable(m) && m.newEpoch == e && DistinctCheckpoints(m.checkpoints)
    && (forall x :: x in m.checkpoints ==> Aligned(x.seqNo, ci))
    && (forall v :: v in prepares && v.epoch < e && v.seqNo > Parsed(m).lowWatermark ==>
                      exists x :: x in m.pSet && Supersedes(Vote(x.epoch, x.seqNo, x.digest), v))
    && (forall x :: x in m.pSet ==> x.epoch < e && Vote(x.epoch, x.seqNo, x.digest) in prepares)
    && (forall x :: x in m.qSet ==> x.epoch < e && Vote(x.epoch, x.seqNo, x.digest) in preprepares)
  }

  ghost predicate ChangesFaithful(c: NetworkConfig, r: Replica) {
    forall e :: e in r.changes ==>
                  e <= r.epoch && Faithful(c.checkpointInterval, r.prepares, r.preprepares, e, r.changes[e])
  }

  ghost predicate TagIs(log: Log, e: nat) {
    Tag(log).Some? ==> Tag(log).value == e
  }

  ghost predicate LogState(ci: nat, log: Log, floor: nat, last: nat, e: nat) {
    && WellFormed(log, ci, floor)
    && Aligned(floor, ci) && Aligned(last, ci)
    && CheckpointsBetween(log, floor, last)
    && IntervalsBelow(log, last + ci + 1)
    && EpochsUpTo(log, e)
  }

  ghost predicate LogInv(c: NetworkConfig, r: Replica) {
    && LogState(c.checkpointInterval, r.log, r.floor, r.lastCheckpoint, r.epoch)
    && (r.phase != Changing ==> TagIs(r.log, r.epoch))
    && (r.phase == Echoed ==> FreshTag(r.log))
  }

  ghost predicate VotingInv(c: NetworkConfig, r: Replica) {
    && LogInv(c, r)
    && Voted(r.log, r.preprepares, r.prepares)
    && PLogged(r.log, r.prepares, r.floor)
    && VotesInOrder(r)
    && VotesJustified(r)
    && ChangesFaithful(c, r)
  }

  ghost predicate DeliveryInv(r: Replica) {
    && PreparesJustified(r)
    && DeliveredJustified(r)
    && CheckpointsInv(r)
    && TailInv(r)
    && OffersInv(r)
    && ReportsInv(r)
  }

  ghost predicate ReplicaInv(c: NetworkConfig, r: Replica) {
    VotingInv(c, r) && DeliveryInv(r)
  }

  // ---------------------------------------------------------------- appending one entry

  lemma PrefixOfAppend(log: Log, entry: Entry, i: nat)
    requires i <= |log|
    ensures (log + [entry])[..i] == log[..i]
    ensures i < |log| ==> (log + [entry])[i] == log[i]
  {
  }

  lemma AppendTag(log: Log, entry: Entry)
    ensures Tag(log + [entry]) == if EpochOf(entry).Some? then EpochOf(entry) else Tag(log)
  {
    assert Init(log + [entry]) == log;
  }

  lemma AppendKeepsVoted(log: Log, entry: Entry, q: set<Vote>, p: set<Vote>)
    requires Voted(log, q, p)
    requires IsVote(entry) ==> Vote(TagOr(log, 0), entry.seqNo, entry.digest) in if entry.QEntry? then q else p
    ensures Voted(log + [entry], q, p)
  {
    var after := log + [entry];
    forall i | 0 <= i < |after| && IsVote(after[i]) ensures VoteAt(after, i) in if after[i].QEntry? then q else p {
      PrefixOfAppend(log, entry, i);
      if i < |log| {
        assert VoteAt(after, i) == VoteAt(log, i);
      } else {
        assert log[..i] == log;
      }
    }
  }

  lemma AppendKeepsPLoggedAt(log: Log, entry: Entry, v: Vote)
    requires PLoggedAt(log, v) && (entry.PEntry? ==> entry.seqNo != v.seqNo)
    ensures PLoggedAt(log + [entry], v)
  {
    var i :| 0 <= i < |log| && IsLastP(log, i) && Supersedes(VoteAt(log, i), v);
    var after := log + [entry];
    PrefixOfAppend(log, entry, i);
    assert IsLastP(after, i) by {
      forall j | i < j < |after| && after[j].PEntry? ensures after[j].seqNo != after[i].seqNo {
        PrefixOfAppend(log, entry, j);
      }
    }
    assert VoteAt(after, i) == VoteAt(log, i);
  }

  lemma AppendKeepsPLogged(log: Log, entry: Entry, votes: set<Vote>, floor: nat)
    requires PLogged(log, votes, floor) && !entry.PEntry?
    ensures PLogged(log + [entry], votes, floor)
  {
    forall v | v in votes && v.seqNo > floor ensures PLoggedAt(log + [entry], v) {
      AppendKeepsPLoggedAt(log, entry, v);
    }
  }

  /** A new P entry is the last one for its sequence number and supersedes all earlier votes for it. */
  lemma AppendPLogged(log: Log, e: nat, s: nat, d: Digest, votes: set<Vote>, floor: nat)
    requires PLogged(log, votes, floor) && Tag(log) == Some(e)
    requires forall v :: v in votes && v.seqNo == s ==> v.epoch < e
    ensures PLogged(log + [PEntry(s, d)], votes + {Vote(e, s, d)}, floor)
  {
    var entry := PEntry(s, d);
    var after := log + [entry];
    assert after[..|log|] == log;
    assert VoteAt(after, |log|) == Vote(e, s, d) && IsLastP(after, |log|);
    forall v | v in votes + {Vote(e, s, d)} && v.seqNo > floor ensures PLoggedAt(after, v) {
      if v.seqNo == s {
        assert Supersedes(VoteAt(after, |log|), v);
      } else {
        AppendKeepsPLoggedAt(log, entry, v);
      }
    }
  }

  // ---------------------------------------------------------------- sending an epoch change

  lemma WholeLogReported(log: Log, e: nat, newEpoch: nat)
    requires EpochsUpTo(log, e) && e < newEpoch
    ensures Reported(log, newEpoch) == log
  {
    CutConcat(log, [], newEpoch);
    assert log + [] == log;
  }

  lemma ReportsFaithful(log: Log, p: set<Vote>, q: set<Vote>, kind: Kind, x: SetEntry)
    requires Voted(log, q, p) && x in VoteReport(log, |log|, kind)
    ensures Vote(x.epoch, x.seqNo, x.digest) in if kind.Prepared? then p else q
  {
    hide Tag;
    ReportContent(log, |log|, kind, x);
    var i :| 0 <= i < |log| && Reports(log, i, kind) && x == ReportAt(log, i);
    assert VoteAt(log, i) in if log[i].QEntry? then q else p;
  }

  lemma PreparesReported(log: Log, p: set<Vote>, floor: nat, v: Vote)
    requires PLogged(log, p, floor) && v in p && v.seqNo > floor
    ensures exists x :: x in VoteReport(log, |log|, Prepared) && Supersedes(Vote(x.epoch, x.seqNo, x.digest), v)
  {
    hide Tag;
    assert PLoggedAt(log, v);
    var i :| 0 <= i < |log| && IsLastP(log, i) && Supersedes(VoteAt(log, i), v);
    ReportContent(log, |log|, Prepared, ReportAt(log, i));
    assert ReportAt(log, i) in VoteReport(log, |log|, Prepared);
  }

  lemma EpochChangeFaithful(c: NetworkConfig, r: Replica, e: nat)
    requires VotingInv(c, r) && e > r.epoch
    ensures EpochChangeOf(r.log, e).Some?
    ensures Faithful(c.checkpointInterval, r.prepares, r.preprepares, e, EpochChangeOf(r.log, e).value)
  {
    hide Voted;
    hide PLogged;
    hide VoteReport;
    hide Supersedes;
    hide VotesJustified;
    hide ChangesFaithful;
    var log := r.log;
    WholeLogReported(log, r.epoch, e);
    WellFormedReadable(log, e);
    OwnEpochChangeParses(log, e);
    var m := EpochChangeOf(log, e).value;
    assert Parseable(m);
    LowestIsLeast(m.checkpoints);
    CReportDistinct(log, |log|);
    forall x | x in m.checkpoints ensures Aligned(x.seqNo, c.checkpointInterval) && x.seqNo >= r.floor {
      CReportContent(log, |log|, x);
    }
    forall v | v in r.prepares && v.epoch < e && v.seqNo > Parsed(m).lowWatermark
      ensures exists x :: x in m.pSet && Supersedes(Vote(x.epoch, x.seqNo, x.digest), v)
    {
      PreparesReported(log, r.prepares, r.floor, v);
    }
    forall x | x in m.pSet ensures x.epoch < e && Vote(x.epoch, x.seqNo, x.digest) in r.prepares {
      ReportsFaithful(log, r.prepares, r.preprepares, Prepared, x);
    }
    forall x | x in m.qSet ensures x.epoch < e && Vote(x.epoch, x.seqNo, x.digest) in r.preprepares {
      ReportsFaithful(log, r.prepares, r.preprepares, Preprepared, x);
    }
  }

  lemma MoreVotesFaithful(ci: nat, p: set<Vote>, q: set<Vote>, p': set<Vote>, q': set<Vote>, e: nat, m: EpochChange)
    requires Faithful(ci, p, q, e, m) && p <= p' && q <= q'
    requires forall v :: v in p' && v !in p ==> v.epoch >= e
    ensures Faithful(ci, p', q', e, m)
  {
  }

  lemma AppendKeepsLogState(ci: nat, log: Log, floor: nat, last: nat, e: nat, entry: Entry)
    requires LogState(ci, log, floor, last, e) && MayAppend(log, ci, floor, entry)
    requires !entry.CEntry? && (entry.NEntry? ==> entry.seqNo <= last + ci + 1)
    requires EpochOf(entry).Some? ==> EpochOf(entry).value <= e
    ensures LogState(ci, log + [entry], floor, last, e)
  {
    hide WellFormed;
    hide MayAppend;
    hide Aligned;
    hide EpochOf;
    AppendKeepsWellFormed(log, ci, floor, entry);
    var after := log + [entry];
    forall i | 0 <= i < |log| ensures after[i] == log[i] {
    }
    var i :| 0 <= i < |log| && log[i].CEntry?;
    assert after[i].CEntry?;
  }

  lemma CheckpointKeepsLogState(ci: nat, log: Log, floor: nat, last: nat, e: nat, value: nat)
    requires LogState(ci, log, floor, last, e)
    ensures LogState(ci, log + [CEntry(last + ci, value)], floor, last + ci, e)
  {
    var entry := CEntry(last + ci, value);
    AppendKeepsWellFormed(log, ci, floor, entry);
    var after := log + [entry];
    forall i | 0 <= i < |log| ensures after[i] == log[i] {
    }
    assert after[|log|].CEntry?;
  }

  lemma MoreEpochs(ci: nat, log: Log, floor: nat, last: nat, e: nat, e': nat)
    requires LogState(ci, log, floor, last, e) && e <= e'
    ensures LogState(ci, log, floor, last, e')
  {
  }

  lemma MoreVotesChangesFaithful(c: NetworkConfig, r: Replica, r': Replica)
    requires ChangesFaithful(c, r) && r'.changes == r.changes && r'.epoch == r.epoch
    requires r.prepares <= r'.prepares && r.preprepares <= r'.preprepares
    requires forall v :: v in r'.prepares && v !in r.prepares ==> v.epoch >= r.epoch
    ensures ChangesFaithful(c, r')
  {
    forall e | e in r.changes ensures Faithful(c.checkpointInterval, r'.prepares, r'.preprepares, e, r.changes[e]) {
      MoreVotesFaithful(c.checkpointInterval, r.prepares, r.preprepares, r'.prepares, r'.preprepares, e, r.changes[e]);
    }
  }

  lemma BeginKeepsInv(c: NetworkConfig, r: Replica, r': Replica, e: nat)
    requires VotingInv(c, r) && BeginEpochChange(c, r, r', e)
    ensures VotingInv(c, r')
  {
    hide LogState;
    hide Voted;
    hide PLogged;
    hide Faithful;
    hide VoteJustified;
    hide CarriedVotes;
    hide EpochChangeOf;
    EpochChangeFaithful(c, r, e);
    MoreEpochs(c.checkpointInterval, r.log, r.floor, r.lastCheckpoint, r.epoch, e);
    AppendKeepsLogState(c.checkpointInterval, r.log, r.floor, r.lastCheckpoint, e, ECEntry(e));
    AppendKeepsVoted(r.log, ECEntry(e), r.preprepares, r.prepares);
    AppendKeepsPLogged(r.log, ECEntry(e), r.prepares, r.floor);
  }

  // ---------------------------------------------------------------- steps in an open epoch

  lemma IntervalBelowStop(n: nat, last: nat, ci: nat)
    requires ci > 0 && n >= 1 && Aligned(n - 1, ci) && Aligned(last, ci) && n - 1 < last + 2 * ci
    ensures n <= last + ci + 1
  {
    if n - 1 > last + ci {
      AlignedApart(last + ci, n - 1, ci);
    }
  }

  lemma OpenKeepsInv(c: NetworkConfig, r: Replica, r': Replica, n: nat, config: EpochConfig)
    requires VotingInv(c, r) && OpenInterval(c, r, r', n, config)
    ensures VotingInv(c, r')
  {
    var entry := NEntry(n, config);
    IntervalBelowStop(n, r.lastCheckpoint, c.checkpointInterval);
    AppendKeepsLogState(c.checkpointInterval, r.log, r.floor, r.lastCheckpoint, r.epoch, entry);
    AppendKeepsVoted(r.log, entry, r.preprepares, r.prepares);
    AppendKeepsPLogged(r.log, entry, r.prepares, r.floor);
    AppendTag(r.log, entry);
  }

  /** Sequences above the last checkpoint of an opened interval may be voted on. */
  lemma VoteAllowed(c: NetworkConfig, r: Replica, s: nat)
    requires LogInv(c, r) && r.phase != Changing && s > r.lastCheckpoint && Opened(r.log, c.checkpointInterval, s)
    ensures MayVote(r.log, c.checkpointInterval, r.floor, s) && Tag(r.log) == Some(r.epoch)
  {
    var j :| 0 <= j < |r.log| && r.log[j].NEntry? && Block(r.log[j].seqNo, s, c.checkpointInterval);
    TagFound(r.log, j);
  }

  lemma NotYetLogged(log: Log, votes: set<Vote>, p: set<Vote>, e: nat, s: nat)
    requires Voted(log, votes, p) && Tag(log) == Some(e)
    requires forall v :: v in votes && v.epoch == e ==> v.seqNo != s
    ensures forall i :: 0 <= i < |log| && log[i].QEntry? && log[i].seqNo == s ==> TagOr(log[..i], 0) != TagOr(log, 0)
  {
    forall i | 0 <= i < |log| && log[i].QEntry? && log[i].seqNo == s ensures TagOr(log[..i], 0) != e {
      assert VoteAt(log, i) in votes;
    }
  }

  lemma PreprepareKeepsInv(c: NetworkConfig, r: Replica, r': Replica, s: nat, d: Digest, requests: seq<RequestAck>)
    requires VotingInv(c, r) && Preprepare(c, r, r', s, d, requests)
    ensures VotingInv(c, r')
  {
    hide WellFormed;
    hide CheckpointsBetween;
    hide IntervalsBelow;
    hide EpochsUpTo;
    hide PLogged;
    hide FreshTag;
    hide Faithful;
    hide CarriedVotes;
    hide Aligned;
    hide Tag;
    hide Opened;
    var entry := QEntry(s, d, requests);
    VoteAllowed(c, r, s);
    NotYetLogged(r.log, r.preprepares, r.prepares, r.epoch, s);
    AppendKeepsLogState(c.checkpointInterval, r.log, r.floor, r.lastCheckpoint, r.epoch, entry);
    MoreVoted(r.log, r.preprepares, r.prepares, r'.preprepares, r'.prepares);
    AppendKeepsVoted(r.log, entry, r'.preprepares, r'.prepares);
    AppendKeepsPLogged(r.log, entry, r.prepares, r.floor);
    AppendTag(r.log, entry);
    assert VoteJustified(r.echoes, Vote(r.epoch, s, d));
    MoreVotesChangesFaithful(c, r, r');
  }

  lemma PrepareKeepsVotes(c: NetworkConfig, r: Replica, r': Replica, s: nat, d: Digest)
    requires VotesInOrder(r) && VotesJustified(r) && ChangesFaithful(c, r) && Prepare(c, r, r', s, d)
    ensures VotesInOrder(r') && VotesJustified(r') && ChangesFaithful(c, r')
  {
    hide Faithful;
    hide VoteJustified;
    hide CarriedVotes;
    hide Opened;
    MoreVotesChangesFaithful(c, r, r');
  }

  lemma PrepareKeepsLog(c: NetworkConfig, r: Replica, r': Replica, s: nat, d: Digest)
    requires LogInv(c, r) && Voted(r.log, r.preprepares, r.prepares) && PLogged(r.log, r.prepares, r.floor)
    requires VotesInOrder(r) && Prepare(c, r, r', s, d)
    ensures LogInv(c, r') && Voted(r'.log, r'.preprepares, r'.prepares) && PLogged(r'.log, r'.prepares, r'.floor)
  {
    var entry := PEntry(s, d);
    VoteAllowed(c, r, s);
    AppendKeepsLogState(c.checkpointInterval, r.log, r.floor, r.lastCheckpoint, r.epoch, entry);
    MoreVoted(r.log, r.preprepares, r.prepares, r'.preprepares, r'.prepares);
    AppendKeepsVoted(r.log, entry, r'.preprepares, r'.prepares);
    AppendPLogged(r.log, r.epoch, s, d, r.prepares, r.floor);
    AppendTag(r.log, entry);
  }

  lemma PrepareKeepsInv(c: NetworkConfig, r: Replica, r': Replica, s: nat, d: Digest)
    requires VotingInv(c, r) && Prepare(c, r, r', s, d)
    ensures VotingInv(c, r')
  {
    PrepareKeepsLog(c, r, r', s, d);
    PrepareKeepsVotes(c, r, r', s, d);
  }

  lemma CheckpointKeepsInv(c: NetworkConfig, r: Replica, r': Replica, value: nat)
    requires VotingInv(c, r) && CheckpointsInv(r) && TakeCheckpoint(c, r, r', value)
    ensures VotingInv(c, r')
  {
    hide LogState;
    hide Voted;
    hide PLogged;
    hide Faithful;
    hide VoteJustified;
    hide CarriedVotes;
    hide Tag;
    var entry := CEntry(r.lastCheckpoint + c.checkpointInterval, value);
    CheckpointKeepsLogState(c.checkpointInterval, r.log, r.floor, r.lastCheckpoint, r.epoch, value);
    AppendKeepsVoted(r.log, entry, r.preprepares, r.prepares);
    AppendKeepsPLogged(r.log, entry, r.prepares, r.floor);
    AppendTag(r.log, entry);
  }

  // ---------------------------------------------------------------- truncation

  lemma TruncateKeepsVoted(log: Log, ci: nat, floor: nat, low: nat, q: set<Vote>, p: set<Vote>)
    requires WellFormed(log, ci, floor) && Voted(log, q, p)
    requires floor <= low && Aligned(low, ci) && FirstStop(log, low) < |log|
    ensures Voted(Truncated(log, low), q, p)
  {
    var k := FirstStop(log, low);
    var rest := log[k..];
    assert Truncated(log, low) == rest;
    CoveredAbove(log, ci, floor, low);
    forall i | 0 <= i < |rest| && IsVote(rest[i]) ensures VoteAt(rest, i) in if rest[i].QEntry? then q else p {
      TruncateKeepsTags(log, ci, low, k, i);
      SuffixAt(log, k, i, i);
      assert VoteAt(rest, i) == VoteAt(log, k + i);
    }
  }

  lemma SuffixKeepsPLoggedAt(drop: Log, rest: Log, low: nat, v: Vote)
    requires Stale(drop, low) && TaggedAbove(rest, low) && PLoggedAt(drop + rest, v) && v.seqNo > low
    ensures PLoggedAt(rest, v)
  {
    var log := drop + rest;
    var i :| 0 <= i < |log| && IsLastP(log, i) && Supersedes(VoteAt(log, i), v);
    if i < |drop| {
      assert false;
    }
    SuffixReportAt(drop, rest, Prepared, i - |drop|);
    assert ReportAt(rest, i - |drop|) == ReportAt(log, i);
    assert VoteAt(rest, i - |drop|) == VoteAt(log, i);
  }

  lemma CoveredAbove(log: Log, ci: nat, floor: nat, low: nat)
    requires WellFormed(log, ci, floor) && floor <= low
    ensures ci > 0 && Covered(log, ci, low)
  {
    hide CoveredAt;
    hide OnIntervals;
    hide Tagged;
    hide Retagged;
    hide EpochsAscend;
    hide NoRepeatedQ;
    hide CheckpointsAscend;
    hide CheckpointsFollow;
  }

  lemma TruncateKeepsPLogged(log: Log, ci: nat, floor: nat, low: nat, votes: set<Vote>)
    requires WellFormed(log, ci, floor) && PLogged(log, votes, floor)
    requires floor <= low && Aligned(low, ci) && FirstStop(log, low) < |log|
    ensures PLogged(Truncated(log, low), votes, low)
  {
    hide WellFormed;
    hide Covered;
    hide Aligned;
    hide Stale;
    hide TaggedAbove;
    hide PLoggedAt;
    hide FirstStop;
    var k := FirstStop(log, low);
    CoveredAbove(log, ci, floor, low);
    DropIsStale(log, ci, low);
    KeptIsTagged(log, ci, low, k);
    assert log == log[..k] + log[k..];
    forall v | v in votes && v.seqNo > low ensures PLoggedAt(log[k..], v) {
      SuffixKeepsPLoggedAt(log[..k], log[k..], low, v);
    }
  }

  lemma SuffixKeepsBounds(log: Log, k: nat, top: nat, e: nat)
    requires k < |log|
    ensures FreshTag(log) ==> FreshTag(log[k..])
    ensures EpochsUpTo(log, e) ==> EpochsUpTo(log[k..], e)
    ensures IntervalsBelow(log, top) ==> IntervalsBelow(log[k..], top)
    ensures TagIs(log, e) ==> TagIs(log[k..], e)
  {
    hide EpochOf;
    hide Tag;
    var rest := log[k..];
    TagConcat(log[..k], rest);
    assert log[..k] + rest == log;
    forall i | 0 <= i < |rest| ensures rest[i] == log[k + i] && rest[i..] == log[k + i..] {
    }
  }

  lemma CheckpointStops(ci: nat, log: Log, floor: nat, low: nat, i: nat)
    requires WellFormed(log, ci, floor) && i < |log| && log[i].CEntry? && log[i].seqNo == low
    ensures FirstStop(log, low) <= i && Aligned(low, ci)
    ensures Truncated(log, low) == log[FirstStop(log, low)..]
  {
    hide Covered;
    hide Tagged;
    hide Retagged;
    hide EpochsAscend;
    hide NoRepeatedQ;
    hide Aligned;
    assert Stops(log[i], low);
  }

  lemma TruncateKeepsLogState(ci: nat, log: Log, floor: nat, last: nat, e: nat, low: nat, i: nat)
    requires LogState(ci, log, floor, last, e) && low >= floor
    requires i < |log| && log[i].CEntry? && log[i].seqNo == low
    ensures FirstStop(log, low) <= i && Aligned(low, ci)
    ensures LogState(ci, Truncated(log, low), low, last, e)
  {
    hide WellFormed;
    hide Aligned;
    hide FirstStop;
    hide Truncated;
    hide EpochsUpTo;
    hide IntervalsBelow;
    CheckpointStops(ci, log, floor, low, i);
    TruncateKeepsWellFormed(log, ci, floor, low);
    var k := FirstStop(log, low);
    SuffixKeepsBounds(log, k, last + ci + 1, e);
    var rest := log[k..];
    assert rest[i - k] == log[i];
    forall j | 0 <= j < |rest| && rest[j].CEntry? ensures low <= rest[j].seqNo <= last {
      assert rest[j] == log[k + j];
    }
  }

  lemma TruncateKeepsInv(c: NetworkConfig, r: Replica, r': Replica, low: nat)
    requires VotingInv(c, r) && TruncateLog(c, r, r', low)
    ensures VotingInv(c, r')
  {
    hide WellFormed;
    hide CheckpointsBetween;
    hide Voted;
    hide PLogged;
    hide FreshTag;
    hide TagIs;
    hide Faithful;
    hide VoteJustified;
    hide CarriedVotes;
    hide Aligned;
    hide FirstStop;
    hide Truncated;
    var i :| 0 <= i < |r.log| && r.log[i].CEntry? && r.log[i].seqNo == low;
    CheckpointStops(c.checkpointInterval, r.log, r.floor, low, i);
    TruncateKeepsLogState(c.checkpointInterval, r.log, r.floor, r.lastCheckpoint, r.epoch, low, i);
    TruncateKeepsVoted(r.log, c.checkpointInterval, r.floor, low, r.preprepares, r.prepares);
    TruncateKeepsPLogged(r.log, c.checkpointInterval, r.floor, low, r.prepares);
    SuffixKeepsBounds(r.log, FirstStop(r.log, low), 0, r.epoch);
  }

  // ---------------------------------------------------------------- echoing a configuration

  lemma AppendKeepsFreshTag(log: Log, entry: Entry)
    requires !entry.CEntry? && (FreshTag(log) || EpochOf(entry).Some?)
    ensures FreshTag(log + [entry])
  {
    var after := log + [entry];
    forall i | 0 <= i < |after| && after[i].CEntry? ensures Tag(after[i..]).Some? {
      assert after[i] == log[i];
      assert after[i..] == log[i..] + [entry];
      AppendTag(log[i..], entry);
    }
  }

  lemma AppendKeepsN(log: Log, entry: Entry, n: nat)
    requires HasN(log, n) || (entry.NEntry? && entry.seqNo == n)
    ensures HasN(log + [entry], n)
  {
    var after := log + [entry];
    if HasN(log, n) {
      var j :| 0 <= j < |log| && log[j].NEntry? && log[j].seqNo == n;
      assert after[j] == log[j];
    } else {
      assert after[|log|] == entry;
    }
  }

  /** The log `log` while the configuration `k` is being echoed, `n` digests in. */
  ghost predicate Echoing(c: NetworkConfig, r: Replica, k: NewEpochConfig, log: Log, n: nat) {
    && n <= |k.finalPreprepares|
    && LogState(c.checkpointInterval, log, r.floor, r.lastCheckpoint, r.epoch)
    && Tag(log) == Some(r.epoch)
    && FreshTag(log)
    && Voted(log, r.preprepares + CarriedVotes(k, n), r.prepares)
    && PLogged(log, r.prepares, r.floor)
    && HasN(log, k.startingCheckpoint.seqNo + 1)
  }

  lemma MayOpen(c: NetworkConfig, r: Replica, config: EpochConfig, log: Log, s: nat)
    requires LogState(c.checkpointInterval, log, r.floor, r.lastCheckpoint, r.epoch) && config.number == r.epoch
    requires Aligned(s, c.checkpointInterval) && s < StopAt(c, r)
    ensures MayAppend(log, c.checkpointInterval, r.floor, NEntry(s + 1, config))
    ensures s + 1 <= r.lastCheckpoint + c.checkpointInterval + 1
  {
    hide IntervalsBelow;
    hide CheckpointsBetween;
    hide Aligned;
    IntervalBelowStop(s + 1, r.lastCheckpoint, c.checkpointInterval);
  }

  lemma EchoN(c: NetworkConfig, r: Replica, k: NewEpochConfig, log: Log, n: nat, s: nat)
    requires n <= |k.finalPreprepares| && k.config.number == r.epoch
    requires LogState(c.checkpointInterval, log, r.floor, r.lastCheckpoint, r.epoch)
    requires Voted(log, r.preprepares + CarriedVotes(k, n), r.prepares) && PLogged(log, r.prepares, r.floor)
    requires HasN(log, k.startingCheckpoint.seqNo + 1) || s == k.startingCheckpoint.seqNo
    requires Aligned(s, c.checkpointInterval) && s < StopAt(c, r)
    ensures Echoing(c, r, k, log + [NEntry(s + 1, k.config)], n) && HasN(log + [NEntry(s + 1, k.config)], s + 1)
  {
    hide LogState;
    hide MayAppend;
    hide Aligned;
    hide Voted;
    hide PLogged;
    hide CarriedVotes;
    hide Tag;
    hide FreshTag;
    hide HasN;
    var entry := NEntry(s + 1, k.config);
    MayOpen(c, r, k.config, log, s);
    AppendKeepsLogState(c.checkpointInterval, log, r.floor, r.lastCheckpoint, r.epoch, entry);
    AppendTag(log, entry);
    AppendKeepsFreshTag(log, entry);
    AppendKeepsVoted(log, entry, r.preprepares + CarriedVotes(k, n), r.prepares);
    AppendKeepsPLogged(log, entry, r.prepares, r.floor);
    AppendKeepsN(log, entry, k.startingCheckpoint.seqNo + 1);
    AppendKeepsN(log, entry, s + 1);
  }

  lemma CarriedStep(k: NewEpochConfig, n: nat)
    requires n < |k.finalPreprepares|
    ensures CarriedVotes(k, n + 1) ==
            CarriedVotes(k, n) + {Vote(k.config.number, k.startingCheckpoint.seqNo + 1 + n, k.finalPreprepares[n])}
    ensures forall v :: v in CarriedVotes(k, n) ==> v.seqNo != k.startingCheckpoint.seqNo + 1 + n
  {
  }

  lemma CarriedVote(k: NewEpochConfig, v: Vote)
    ensures v in CarriedVotes(k, |k.finalPreprepares|) <==> v.epoch == k.config.number && Carries(k, v.seqNo, v.digest)
  {
    var start := k.startingCheckpoint.seqNo;
    if v.epoch == k.config.number && Carries(k, v.seqNo, v.digest) {
      var i := v.seqNo - start - 1;
      assert v == Vote(k.config.number, start + 1 + i, k.finalPreprepares[i]);
    }
  }

  lemma NoneCarried(k: NewEpochConfig)
    ensures CarriedVotes(k, 0) == {}
  {
  }

  lemma EchoMayVote(log: Log, ci: nat, floor: nat, first: nat, s: nat)
    requires ci > 0 && Tag(log).Some? && FreshTag(log) && HasN(log, first)
    requires first >= 1 && Aligned(first - 1, ci) && first <= s < first + ci
    ensures MayVote(log, ci, floor, s)
  {
    var j :| 0 <= j < |log| && log[j].NEntry? && log[j].seqNo == first;
    assert Block(log[j].seqNo, s, ci);
  }

  lemma MoreVoted(log: Log, q: set<Vote>, p: set<Vote>, q': set<Vote>, p': set<Vote>)
    requires Voted(log, q, p) && q <= q' && p <= p'
    ensures Voted(log, q', p')
  {
  }

  lemma EchoQ(c: NetworkConfig, r: Replica, k: NewEpochConfig, log: Log, n: nat, first: nat, requests: seq<RequestAck>)
    requires Echoing(c, r, k, log, n) && n < |k.finalPreprepares| && k.config.number == r.epoch
    requires forall v :: v in r.preprepares ==> v.epoch < r.epoch
    requires c.checkpointInterval > 0 && HasN(log, first) && first >= 1 && Aligned(first - 1, c.checkpointInterval)
    requires first <= k.startingCheckpoint.seqNo + 1 + n < first + c.checkpointInterval
    ensures Echoing(c, r, k, log + [QEntry(k.startingCheckpoint.seqNo + 1 + n, k.finalPreprepares[n], requests)], n + 1)
  {
    hide LogState;
    hide Voted;
    hide PLogged;
    hide FreshTag;
    hide HasN;
    hide CarriedVotes;
    hide MayVote;
    var s := k.startingCheckpoint.seqNo + 1 + n;
    var entry := QEntry(s, k.finalPreprepares[n], requests);
    var votes := r.preprepares + CarriedVotes(k, n);
    var votes' := r.preprepares + CarriedVotes(k, n + 1);
    CarriedStep(k, n);
    NotYetLogged(log, votes, r.prepares, r.epoch, s);
    EchoMayVote(log, c.checkpointInterval, r.floor, first, s);
    AppendKeepsLogState(c.checkpointInterval, log, r.floor, r.lastCheckpoint, r.epoch, entry);
    AppendTag(log, entry);
    AppendKeepsFreshTag(log, entry);
    MoreVoted(log, votes, r.prepares, votes', r.prepares);
    AppendKeepsVoted(log, entry, votes', r.prepares);
    AppendKeepsPLogged(log, entry, r.prepares, r.floor);
    AppendKeepsN(log, entry, k.startingCheckpoint.seqNo + 1);
  }

  /** What echoing needs of the replica and the configuration, beyond the log. */
  ghost predicate EchoAllowed(c: NetworkConfig, r: Replica, k: NewEpochConfig) {
    && c.checkpointInterval > 0
    && (forall v :: v in r.preprepares ==> v.epoch < r.epoch)
    && k.config.number == r.epoch
    && Aligned(k.startingCheckpoint.seqNo, c.checkpointInterval)
    && k.startingCheckpoint.seqNo <= r.lastCheckpoint
    && |k.finalPreprepares| <= Window(c)
  }

  function SecondStart(c: NetworkConfig, k: NewEpochConfig): nat {
    k.startingCheckpoint.seqNo + c.checkpointInterval + 1
  }

  lemma EchoStep(c: NetworkConfig, r: Replica, k: NewEpochConfig, log: Log, n: nat, requests: seq<RequestAck>)
    requires EchoAllowed(c, r, k) && Echoing(c, r, k, log, n) && n < |k.finalPreprepares|
    requires n >= c.checkpointInterval ==> HasN(log, SecondStart(c, k))
    ensures
      var s := k.startingCheckpoint.seqNo + 1 + n;
      var after := log + [QEntry(s, k.finalPreprepares[n], requests)];
      && Echoing(c, r, k, after, n + 1)
      && (HasN(log, SecondStart(c, k)) ==> HasN(after, SecondStart(c, k)))
      && (Aligned(s, c.checkpointInterval) && s < StopAt(c, r) ==>
            && Echoing(c, r, k, after + [NEntry(s + 1, k.config)], n + 1)
            && HasN(after + [NEntry(s + 1, k.config)], s + 1)
            && (HasN(log, SecondStart(c, k)) ==> HasN(after + [NEntry(s + 1, k.config)], SecondStart(c, k))))
  {
    hide LogState;
    hide Voted;
    hide PLogged;
    hide FreshTag;
    hide HasN;
    hide CarriedVotes;
    var start, ci := k.startingCheckpoint.seqNo, c.checkpointInterval;
    var s := start + 1 + n;
    var entry := QEntry(s, k.finalPreprepares[n], requests);
    EchoQ(c, r, k, log, n, if n < ci then start + 1 else start + ci + 1, requests);
    if HasN(log, SecondStart(c, k)) {
      AppendKeepsN(log, entry, SecondStart(c, k));
    }
    if Aligned(s, ci) && s < StopAt(c, r) {
      EchoN(c, r, k, log + [entry], n + 1, s);
      if HasN(log, SecondStart(c, k)) {
        AppendKeepsN(log + [entry], NEntry(s + 1, k.config), SecondStart(c, k));
      }
    }
  }

  lemma {:induction false} EchoLogKeeps(c: NetworkConfig, r: Replica, k: NewEpochConfig,
                                        batch: Digest -> seq<RequestAck>, n: nat)
    requires EchoAllowed(c, r, k) && n <= |k.finalPreprepares| && SecondIntervalOpened(c, r.log, k)
    requires LogState(c.checkpointInterval, r.log, r.floor, r.lastCheckpoint, r.epoch)
    requires Voted(r.log, r.preprepares, r.prepares) && PLogged(r.log, r.prepares, r.floor)
    ensures Echoing(c, r, k, EchoLog(c, r.log, k, StopAt(c, r), batch, n), n)
    ensures c.checkpointInterval <= n < |k.finalPreprepares| ==>
              HasN(EchoLog(c, r.log, k, StopAt(c, r), batch, n), SecondStart(c, k))
    ensures HasN(r.log, SecondStart(c, k)) ==>
              HasN(EchoLog(c, r.log, k, StopAt(c, r), batch, n), SecondStart(c, k))
  {
    hide LogState;
    hide Voted;
    hide PLogged;
    hide HasN;
    hide Echoing;
    hide CarriedVotes;
    var start := k.startingCheckpoint.seqNo;
    if n == 0 {
      NoneCarried(k);
      assert r.preprepares + CarriedVotes(k, 0) == r.preprepares;
      EchoN(c, r, k, r.log, 0, start);
      if HasN(r.log, SecondStart(c, k)) {
        AppendKeepsN(r.log, NEntry(start + 1, k.config), SecondStart(c, k));
      }
    } else {
      EchoLogKeeps(c, r, k, batch, n - 1);
      var before := EchoLog(c, r.log, k, StopAt(c, r), batch, n - 1);
      var d := k.finalPreprepares[n - 1];
      EchoStep(c, r, k, before, n - 1, if d == NullDigest then [] else batch(d));
      assert start + 1 + (n - 1) == start + n;
    }
  }

  lemma {:induction false} NullSkipsInterval(c: NetworkConfig, log: Log, k: NewEpochConfig, stop: nat,
                                             batch: Digest -> seq<RequestAck>, n: nat)
    requires 0 < c.checkpointInterval <= |k.finalPreprepares| && n <= c.checkpointInterval
    requires k.finalPreprepares[c.checkpointInterval - 1] == NullDigest && !HasN(log, SecondStart(c, k))
    ensures !HasN(EchoLog(c, log, k, stop, batch, n), SecondStart(c, k))
  {
    if n > 0 {
      NullSkipsInterval(c, log, k, stop, batch, n - 1);
    }
  }

  lemma {:induction false} EchoLogPrefix(c: NetworkConfig, log: Log, k: NewEpochConfig, stop: nat,
                                         batch: Digest -> seq<RequestAck>, m: nat, n: nat)
    requires c.checkpointInterval > 0 && m <= n <= |k.finalPreprepares|
    ensures EchoLog(c, log, k, stop, batch, m) <= EchoLog(c, log, k, stop, batch, n)
    decreases n
  {
    if m < n {
      EchoLogPrefix(c, log, k, stop, batch, m, n - 1);
    }
  }

  /** The exact condition for echoing to leave the log covered: the second interval is covered only by
      the N entry that its predecessor's last digest brings along, or by one from before. */
  lemma EchoCovers(c: NetworkConfig, r: Replica, k: NewEpochConfig, batch: Digest -> seq<RequestAck>)
    requires EchoAllowed(c, r, k) && c.checkpointInterval < |k.finalPreprepares| && SecondStart(c, k) > r.floor
    requires LogState(c.checkpointInterval, r.log, r.floor, r.lastCheckpoint, r.epoch)
    requires Voted(r.log, r.preprepares, r.prepares) && PLogged(r.log, r.prepares, r.floor)
    ensures Covered(EchoLog(c, r.log, k, StopAt(c, r), batch, |k.finalPreprepares|), c.checkpointInterval, r.floor) <==>
            SecondIntervalOpened(c, r.log, k)
  {
    var ci := c.checkpointInterval;
    var log := EchoLog(c, r.log, k, StopAt(c, r), batch, |k.finalPreprepares|);
    if SecondIntervalOpened(c, r.log, k) {
      EchoLogKeeps(c, r, k, batch, |k.finalPreprepares|);
    } else if Covered(log, ci, r.floor) {
      SecondUncovered(c, r.log, k, StopAt(c, r), batch);
    }
  }

  lemma SecondUncovered(c: NetworkConfig, log: Log, k: NewEpochConfig, stop: nat, batch: Digest -> seq<RequestAck>)
    requires 0 < c.checkpointInterval < |k.finalPreprepares| && Aligned(k.startingCheckpoint.seqNo, c.checkpointInterval)
    requires !SecondIntervalOpened(c, log, k)
    ensures
      var i := |EchoLog(c, log, k, stop, batch, c.checkpointInterval)|;
      var after := EchoLog(c, log, k, stop, batch, |k.finalPreprepares|);
      i < |after| && IsVote(after[i]) && after[i].seqNo == SecondStart(c, k) && !CoveredAt(after, i, c.checkpointInterval)
  {
    var ci, start := c.checkpointInterval, k.startingCheckpoint.seqNo;
    var before, after := EchoLog(c, log, k, stop, batch, ci), EchoLog(c, log, k, stop, batch, |k.finalPreprepares|);
    var next := EchoLog(c, log, k, stop, batch, ci + 1);
    NullSkipsInterval(c, log, k, stop, batch, ci);
    EchoLogPrefix(c, log, k, stop, batch, ci + 1, |k.finalPreprepares|);
    assert before <= next <= after;
    assert after[|before|] == next[|before|];
    if CoveredAt(after, |before|, ci) {
      var j :| 0 <= j < |before| && after[j].NEntry? && Block(after[j].seqNo, start + ci + 1, ci);
      assert after[j] == before[j];
      if after[j].seqNo - 1 < start + ci {
        AlignedApart(after[j].seqNo - 1, start + ci, ci);
      }
      assert false;
    }
  }

  lemma EchoKeepsVotes(c: NetworkConfig, r: Replica, r': Replica, k: NewEpochConfig, batch: Digest -> seq<RequestAck>)
    requires VotesInOrder(r) && VotesJustified(r) && ChangesFaithful(c, r) && EchoConfig(c, r, r', k, batch)
    ensures VotesInOrder(r') && VotesJustified(r') && ChangesFaithful(c, r')
  {
    hide CarriedVotes;
    hide Carries;
    hide End;
    hide EchoLog;
    hide Faithful;
    hide Aligned;
    hide SecondIntervalOpened;
    forall v | v in r'.preprepares ensures VoteJustified(r'.echoes, v) {
      if v in r.preprepares {
        var k' :| k' in r.echoes && k'.config.number == v.epoch && (Carries(k', v.seqNo, v.digest) || v.seqNo > End(k'));
        assert k' in r'.echoes;
      } else {
        CarriedVote(k, v);
        assert k in r'.echoes;
      }
    }
    forall v ensures v in CarriedVotes(k, |k.finalPreprepares|) ==> v.epoch == r.epoch {
      CarriedVote(k, v);
    }
    MoreVotesChangesFaithful(c, r, r');
  }

  lemma EchoKeepsInv(c: NetworkConfig, r: Replica, r': Replica, k: NewEpochConfig, batch: Digest -> seq<RequestAck>)
    requires VotingInv(c, r) && EchoConfig(c, r, r', k, batch)
    ensures VotingInv(c, r')
  {
    EchoLogKeeps(c, r, k, batch, |k.finalPreprepares|);
    EchoKeepsVotes(c, r, r', k, batch);
  }

  // ---------------------------------------------------------------- readying a configuration

  lemma TagAfterEcho(c: NetworkConfig, r: Replica)
    requires LogInv(c, r) && r.phase == Echoed
    ensures Tag(r.log) == Some(r.epoch)
  {
    hide WellFormed;
    hide EpochsUpTo;
    hide IntervalsBelow;
    hide Aligned;
    hide Tag;
    var i :| 0 <= i < |r.log| && r.log[i].CEntry?;
    TagConcat(r.log[..i], r.log[i..]);
    assert r.log[..i] + r.log[i..] == r.log;
  }

  ghost predicate Readying(c: NetworkConfig, r: Replica, k: NewEpochConfig, log: Log, n: nat) {
    && n <= |k.finalPreprepares|
    && LogState(c.checkpointInterval, log, r.floor, r.lastCheckpoint, r.epoch)
    && Tag(log) == Some(r.epoch)
    && FreshTag(log)
    && Voted(log, r.preprepares, r.prepares + CarriedVotes(k, n))
    && PLogged(log, r.prepares + CarriedVotes(k, n), r.floor)
  }

  lemma AppendKeepsOpened(log: Log, entry: Entry, ci: nat, s: nat)
    requires ci > 0 && Opened(log, ci, s)
    ensures Opened(log + [entry], ci, s)
  {
    var j :| 0 <= j < |log| && log[j].NEntry? && Block(log[j].seqNo, s, ci);
    assert (log + [entry])[j] == log[j];
  }

  lemma ReadyP(c: NetworkConfig, r: Replica, k: NewEpochConfig, log: Log, n: nat)
    requires Readying(c, r, k, log, n) && n < |k.finalPreprepares| && k.config.number == r.epoch
    requires forall v :: v in r.prepares ==> v.epoch < r.epoch
    requires k.startingCheckpoint.seqNo + 1 + n > r.floor ==>
               Opened(log, c.checkpointInterval, k.startingCheckpoint.seqNo + 1 + n)
    ensures Readying(c, r, k, log + [PEntry(k.startingCheckpoint.seqNo + 1 + n, k.finalPreprepares[n])], n + 1)
  {
    hide WellFormed;
    hide Voted;
    hide PLogged;
    hide Tag;
    hide CarriedVotes;
    hide CheckpointsBetween;
    hide IntervalsBelow;
    hide EpochsUpTo;
    hide Aligned;
    var s := k.startingCheckpoint.seqNo + 1 + n;
    var entry := PEntry(s, k.finalPreprepares[n]);
    var votes := r.prepares + CarriedVotes(k, n);
    CarriedStep(k, n);
    AppendKeepsLogState(c.checkpointInterval, log, r.floor, r.lastCheckpoint, r.epoch, entry);
    AppendTag(log, entry);
    AppendKeepsFreshTag(log, entry);
    var votes' := r.prepares + CarriedVotes(k, n + 1);
    MoreVoted(log, r.preprepares, votes, r.preprepares, votes');
    AppendKeepsVoted(log, entry, r.preprepares, votes');
    AppendPLogged(log, r.epoch, s, k.finalPreprepares[n], votes, r.floor);
    assert votes + {Vote(r.epoch, s, k.finalPreprepares[n])} == votes';
  }

  lemma {:induction false} ReadyLogKeeps(c: NetworkConfig, r: Replica, r': Replica, k: NewEpochConfig, n: nat)
    requires VotingInv(c, r) && ReadyOnEchoes(c, r, r', k) && n <= |k.finalPreprepares|
    ensures Readying(c, r, k, ReadyLog(r.log, k, n), n)
    ensures forall s :: Opened(r.log, c.checkpointInterval, s) ==> Opened(ReadyLog(r.log, k, n), c.checkpointInterval, s)
  {
    hide LogState;
    hide Voted;
    hide PLogged;
    hide FreshTag;
    hide VotesJustified;
    hide ChangesFaithful;
    hide CarriedVotes;
    if n == 0 {
      TagAfterEcho(c, r);
      NoneCarried(k);
      assert r.prepares + CarriedVotes(k, 0) == r.prepares;
    } else {
      ReadyLogKeeps(c, r, r', k, n - 1);
      var before := ReadyLog(r.log, k, n - 1);
      ReadyP(c, r, k, before, n - 1);
      forall s | Opened(r.log, c.checkpointInterval, s) ensures Opened(ReadyLog(r.log, k, n), c.checkpointInterval, s) {
        AppendKeepsOpened(before, PEntry(k.startingCheckpoint.seqNo + n, k.finalPreprepares[n - 1]),
                          c.checkpointInterval, s);
      }
    }
  }

  lemma ReadyKeepsVotes(c: NetworkConfig, r: Replica, r': Replica, k: NewEpochConfig)
    requires VotesInOrder(r) && VotesJustified(r) && ChangesFaithful(c, r) && ReadyOnEchoes(c, r, r', k)
    ensures VotesInOrder(r') && VotesJustified(r') && ChangesFaithful(c, r')
  {
    MoreVotesChangesFaithful(c, r, r');
  }

  lemma ReadyKeepsInv(c: NetworkConfig, r: Replica, r': Replica, k: NewEpochConfig)
    requires VotingInv(c, r) && ReadyOnEchoes(c, r, r', k)
    ensures VotingInv(c, r')
  {
    ReadyLogKeeps(c, r, r', k, |k.finalPreprepares|);
    ReadyKeepsVotes(c, r, r', k);
  }

  // ---------------------------------------------------------------- delivering

  lemma ReadyLogTail(log: Log, k: NewEpochConfig, n: nat, e: nat, votes: set<Vote>)
    requires n <= |k.finalPreprepares| && Tail(log, e, votes) && ChangesUpTo(log, e)
    ensures Tail(ReadyLog(log, k, n), e, votes) && ChangesUpTo(ReadyLog(log, k, n), e)
  {
    hide Tail;
    hide ChangesUpTo;
    if n > 0 {
      ReadyLogTail(log, k, n - 1, e, votes);
      TailAppend(ReadyLog(log, k, n - 1), PEntry(k.startingCheckpoint.seqNo + n, k.finalPreprepares[n - 1]), e, votes);
    }
  }

  lemma TailAppend(log: Log, entry: Entry, e: nat, votes: set<Vote>)
    requires Tail(log, e, votes) && ChangesUpTo(log, e) && (entry.NEntry? || IsVote(entry))
    ensures ChangesUpTo(log + [entry], e)
    ensures !entry.QEntry? ==> Tail(log + [entry], e, votes)
    ensures entry.QEntry? ==> Tail(log + [entry], e, votes + {Vote(e, entry.seqNo, entry.digest)})
  {
    var after := log + [entry];
    AfterChangeAppend(log, entry, e);
    assert NoCheckpointAfter(after, e) by {
      forall i | 0 <= i < |after| && after[i].CEntry? ensures !Begun(after, e, i) {
        assert after[i] == log[i] && !Begun(log, e, i);
        forall j | 0 <= j < i ensures after[j] == log[j] {
        }
      }
    }
    forall i | 0 <= i < |log| ensures after[i] == log[i] {
    }
  }

  /** Echoing puts exactly the carried-over digests after the EC entry. */
  lemma {:induction false} EchoLogTail(c: NetworkConfig, log: Log, k: NewEpochConfig, stop: nat,
                                       batch: Digest -> seq<RequestAck>, n: nat)
    requires n <= |k.finalPreprepares| && c.checkpointInterval > 0
    requires Tail(log, k.config.number, {}) && ChangesUpTo(log, k.config.number)
    ensures Tail(EchoLog(c, log, k, stop, batch, n), k.config.number, CarriedVotes(k, n))
    ensures ChangesUpTo(EchoLog(c, log, k, stop, batch, n), k.config.number)
  {
    hide Tail;
    hide ChangesUpTo;
    hide Aligned;
    hide CarriedVotes;
    var e, start := k.config.number, k.startingCheckpoint.seqNo;
    if n == 0 {
      TailAppend(log, NEntry(start + 1, k.config), e, {});
      NoneCarried(k);
    } else {
      EchoLogTail(c, log, k, stop, batch, n - 1);
      CarriedStep(k, n - 1);
      var before, d := EchoLog(c, log, k, stop, batch, n - 1), k.finalPreprepares[n - 1];
      var entry := QEntry(start + n, d, if d == NullDigest then [] else batch(d));
      TailAppend(before, entry, e, CarriedVotes(k, n - 1));
      TailAppend(before + [entry], NEntry(start + n + 1, k.config), e, CarriedVotes(k, n));
    }
  }

  lemma ChangeTail(log: Log, e: nat, e': nat)
    requires ChangesUpTo(log, e) && e < e'
    ensures Tail(log + [ECEntry(e')], e', {}) && ChangesUpTo(log + [ECEntry(e')], e')
  {
    var after := log + [ECEntry(e')];
    AfterChangeAppend(log, ECEntry(e'), e');
    forall i | 0 <= i <= |log| ensures !Begun(log, e', i) && !Begun(after, e', i) {
      forall j | 0 <= j < i ensures after[j] == log[j] {
      }
    }
    assert AfterChange(log, e') == {};
    forall i | 0 <= i < |log| ensures after[i] == log[i] {
    }
    assert after[|log|] == ECEntry(e');
  }

  lemma TailSuffix(log: Log, k: nat, i: nat, e: nat, votes: set<Vote>)
    requires k <= i < |log| && log[i].CEntry? && Tail(log, e, votes)
    ensures Tail(log[k..], e, votes)
  {
    var rest := log[k..];
    forall j | 0 <= j < |log| && Marks(log[j], e) ensures j >= k {
      if j < k {
        assert Begun(log, e, i);
        assert false;
      }
    }
    forall j | 0 <= j <= |rest| ensures Begun(rest, e, j) <==> Begun(log, e, k + j) {
      if Begun(log, e, k + j) {
        var x :| 0 <= x < k + j && Marks(log[x], e);
        assert rest[x - k] == log[x];
      }
      if Begun(rest, e, j) {
        var x :| 0 <= x < j && Marks(rest[x], e);
        assert log[k + x] == rest[x];
      }
    }
    forall v | v in votes ensures v in AfterChange(rest, e) {
      var j :| 0 <= j < |log| && log[j].QEntry? && Begun(log, e, j) && v == Vote(e, log[j].seqNo, log[j].digest);
      var x :| 0 <= x < j && Marks(log[x], e);
      assert rest[j - k] == log[j] && Begun(rest, e, j - k);
    }
    forall v | v in AfterChange(rest, e) ensures v in votes {
      var j :| 0 <= j < |rest| && rest[j].QEntry? && Begun(rest, e, j) && v == Vote(e, rest[j].seqNo, rest[j].digest);
      assert log[k + j] == rest[j] && Begun(log, e, k + j);
    }
    forall j | 0 <= j < |rest| && rest[j].CEntry? ensures !Begun(rest, e, j) {
      assert log[k + j].CEntry?;
    }
  }

  lemma SuffixKeepsChanges(log: Log, k: nat, e: nat)
    requires k <= |log| && ChangesUpTo(log, e)
    ensures ChangesUpTo(log[k..], e)
  {
  }

  lemma TruncateKeepsTail(c: NetworkConfig, r: Replica, r': Replica, low: nat)
    requires VotingInv(c, r) && TailInv(r) && TruncateLog(c, r, r', low)
    ensures TailInv(r')
  {
    hide Tail;
    hide ChangesUpTo;
    hide WellFormed;
    hide FirstStop;
    hide Truncated;
    hide CarriedVotes;
    var i :| 0 <= i < |r.log| && r.log[i].CEntry? && r.log[i].seqNo == low;
    CheckpointStops(c.checkpointInterval, r.log, r.floor, low, i);
    var k := FirstStop(r.log, low);
    SuffixKeepsChanges(r.log, k, r.epoch);
    if r.phase == Changing && r.epoch in r.changes {
      TailSuffix(r.log, k, i, r.epoch, {});
    } else if r.phase == Echoed || r.phase == Readied {
      TailSuffix(r.log, k, i, r.epoch, CarriedVotes(r.echoed.value, |r.echoed.value.finalPreprepares|));
    }
  }

  lemma AppendKeepsChanges(log: Log, entry: Entry, e: nat)
    requires ChangesUpTo(log, e) && (entry.ECEntry? ==> entry.epochNumber <= e)
    ensures ChangesUpTo(log + [entry], e)
  {
  }

  lemma StepKeepsTail(c: NetworkConfig, r: Replica, r': Replica, step: Step)
    requires VotingInv(c, r) && CheckpointsInv(r) && TailInv(r) && Takes(c, r, r', step)
    ensures TailInv(r')
  {
    hide Tail;
    hide ChangesUpTo;
    hide LogInv;
    hide Voted;
    hide PLogged;
    hide VotesJustified;
    hide ChangesFaithful;
    hide EpochChangeOf;
    hide CarriedVotes;
    hide AfterChange;
    hide Opened;
    hide Aligned;
    match step {
      case Begin(e) => ChangeTail(r.log, r.epoch, e);
      case Lead(k) =>
      case Echo(k, batch) => EchoLogTail(c, r.log, k, StopAt(c, r), batch, |k.finalPreprepares|);
      case ReadyByEchoes(k) =>
        ReadyLogTail(r.log, k, |k.finalPreprepares|, r.epoch,
                     CarriedVotes(r.echoed.value, |r.echoed.value.finalPreprepares|));
      case ReadyByReadies(k) =>
      case Deliver(k) =>
      case Start =>
      case Open(n, config) => AppendKeepsChanges(r.log, NEntry(n, config), r.epoch);
      case Propose(s, d, requests) => AppendKeepsChanges(r.log, QEntry(s, d, requests), r.epoch);
      case Commit(s, d) => AppendKeepsChanges(r.log, PEntry(s, d), r.epoch);
      case Request =>
      case Checkpointed(value) =>
        AppendKeepsChanges(r.log, CEntry(r.lastCheckpoint + c.checkpointInterval, value), r.epoch);
      case Truncate(low) => TruncateKeepsTail(c, r, r', low);
    }
  }

  /** Delivery commits, above the last checkpoint, exactly the digests of the configuration that the
      replica itself echoed, whichever configuration the network delivers. */
  lemma DeliveryCommitsEchoed(c: NetworkConfig, r: Replica, r': Replica, k: NewEpochConfig)
    requires ReplicaInv(c, r) && DeliverConfig(r, r', k)
    ensures r.echoed.Some? && r.echoed.value in r.echoes && r.echoed.value.config.number == r.epoch
    ensures
      var own := r.echoed.value;
      r'.delivered == r.delivered + Above(CarriedVotes(own, |own.finalPreprepares|), r.lastCheckpoint)
  {
    hide OffersInv;
    hide ReportsInv;
    hide LogInv;
    hide Voted;
    hide PLogged;
    hide VotesJustified;
    hide ChangesFaithful;
    hide CarriedVotes;
    hide AfterChange;
  }

  lemma StepKeepsDelivered(c: NetworkConfig, r: Replica, r': Replica, step: Step)
    requires ReplicaInv(c, r) && Takes(c, r, r', step)
    ensures DeliveredJustified(r') && CheckpointsInv(r')
  {
    hide LogInv;
    hide Voted;
    hide PLogged;
    hide VotesJustified;
    hide ChangesFaithful;
    hide PreparesJustified;
    hide TailInv;
    hide OffersInv;
    hide ReportsInv;
    hide EchoLog;
    hide ReadyLog;
    hide EpochChangeOf;
    hide AfterChange;
    hide Opened;
    hide Aligned;
    if step.Deliver? {
      DeliveryCommitsEchoed(c, r, r', step.network);
    }
    forall v | v in r'.delivered
      ensures exists k :: k in r'.echoes && k.config.number == v.epoch && Carries(k, v.seqNo, v.digest)
    {
      if v in r.delivered {
        var k :| k in r.echoes && k.config.number == v.epoch && Carries(k, v.seqNo, v.digest);
        assert k in r'.echoes;
      } else {
        var k := r.echoed.value;
        assert v in CarriedVotes(k, |k.finalPreprepares|);
        assert k in r'.echoes && Carries(k, v.seqNo, v.digest);
      }
    }
  }

  lemma StepKeepsPrepares(c: NetworkConfig, r: Replica, r': Replica, step: Step)
    requires ReplicaInv(c, r) && Takes(c, r, r', step)
    ensures PreparesJustified(r')
  {
    hide CarriedVotes;
    hide Carries;
    hide End;
    hide LogInv;
    hide Voted;
    hide PLogged;
    hide VotesJustified;
    hide ChangesFaithful;
    hide DeliveredJustified;
    hide TailInv;
    hide OffersInv;
    hide ReportsInv;
    hide EchoLog;
    hide ReadyLog;
    hide EpochChangeOf;
    hide AfterChange;
    hide Opened;
    hide Aligned;
    forall v | v in r'.prepares ensures PrepareJustified(r', v) {
      if v in r.prepares {
        assert PrepareJustified(r, v);
        if k :| k in r.anchors && k.config.number == v.epoch && Carries(k, v.seqNo, v.digest) {
          assert k in r'.anchors;
        } else {
          var k :| k in r.echoes && k.config.number == v.epoch && v.seqNo > End(k);
          assert k in r'.echoes;
        }
      } else if step.ReadyByEchoes? {
        CarriedVote(step.readied, v);
        assert step.readied in r'.anchors;
      } else {
        assert r.echoed.value in r'.echoes && v.seqNo > End(r.echoed.value);
      }
    }
  }

  lemma StepKeepsOffers(c: NetworkConfig, r: Replica, r': Replica, step: Step)
    requires OffersInv(r) && Takes(c, r, r', step)
    ensures OffersInv(r')
  {
    hide EchoLog;
    hide ReadyLog;
    hide CarriedVotes;
    hide EpochChangeOf;
    hide AfterChange;
    hide Opened;
    hide Aligned;
    if step.Deliver? {
      assert step.network in r'.adopted;
    } else if r'.phase == Active || r'.phase == Delivered {
      var k :| k in r.adopted && k.config.number == r.epoch;
      assert k in r'.adopted;
    }
  }

  // ---------------------------------------------------------------- reporting what was preprepared

  lemma AppendKeepsQLogged(log: Log, entry: Entry, votes: set<Vote>, floor: nat)
    requires QLogged(log, votes, floor)
    ensures QLogged(log + [entry], votes, floor)
  {
    forall v | v in votes && v.seqNo > floor ensures QLoggedAt(log + [entry], v) {
      var i :| 0 <= i < |log| && log[i].QEntry? && VoteAt(log, i) == v;
      PrefixOfAppend(log, entry, i);
      assert VoteAt(log + [entry], i) == v;
    }
  }

  lemma AppendQLogged(log: Log, e: nat, s: nat, d: Digest, requests: seq<RequestAck>, votes: set<Vote>, floor: nat)
    requires QLogged(log, votes, floor) && Tag(log) == Some(e)
    ensures QLogged(log + [QEntry(s, d, requests)], votes + {Vote(e, s, d)}, floor)
  {
    var entry := QEntry(s, d, requests);
    AppendKeepsQLogged(log, entry, votes, floor);
    assert (log + [entry])[..|log|] == log;
    assert VoteAt(log + [entry], |log|) == Vote(e, s, d);
  }

  lemma {:induction false} EchoLogTag(c: NetworkConfig, log: Log, k: NewEpochConfig, stop: nat,
                                      batch: Digest -> seq<RequestAck>, n: nat)
    requires n <= |k.finalPreprepares| && c.checkpointInterval > 0
    ensures Tag(EchoLog(c, log, k, stop, batch, n)) == Some(k.config.number)
  {
    hide Tag;
    var start := k.startingCheckpoint.seqNo;
    if n == 0 {
      AppendTag(log, NEntry(start + 1, k.config));
    } else {
      EchoLogTag(c, log, k, stop, batch, n - 1);
      var before, d := EchoLog(c, log, k, stop, batch, n - 1), k.finalPreprepares[n - 1];
      var entry := QEntry(start + n, d, if d == NullDigest then [] else batch(d));
      AppendTag(before, entry);
      AppendTag(before + [entry], NEntry(start + n + 1, k.config));
    }
  }

  lemma {:induction false} EchoLogged(c: NetworkConfig, log: Log, k: NewEpochConfig, stop: nat,
                                      batch: Digest -> seq<RequestAck>, votes: set<Vote>, floor: nat, n: nat)
    requires n <= |k.finalPreprepares| && c.checkpointInterval > 0 && QLogged(log, votes, floor)
    ensures QLogged(EchoLog(c, log, k, stop, batch, n), votes + CarriedVotes(k, n), floor)
  {
    hide QLogged;
    hide Tag;
    hide CarriedVotes;
    hide Aligned;
    var start := k.startingCheckpoint.seqNo;
    if n == 0 {
      NoneCarried(k);
      assert votes + CarriedVotes(k, 0) == votes;
      AppendKeepsQLogged(log, NEntry(start + 1, k.config), votes, floor);
    } else {
      EchoLogged(c, log, k, stop, batch, votes, floor, n - 1);
      EchoLogTag(c, log, k, stop, batch, n - 1);
      CarriedStep(k, n - 1);
      var before, d := EchoLog(c, log, k, stop, batch, n - 1), k.finalPreprepares[n - 1];
      var requests := if d == NullDigest then [] else batch(d);
      var less, more := votes + CarriedVotes(k, n - 1), votes + CarriedVotes(k, n);
      AppendQLogged(before, k.config.number, start + n, d, requests, less, floor);
      assert less + {Vote(k.config.number, start + n, d)} == more;
      AppendKeepsQLogged(before + [QEntry(start + n, d, requests)], NEntry(start + n + 1, k.config), more, floor);
    }
  }

  lemma {:induction false} ReadyLogged(log: Log, k: NewEpochConfig, votes: set<Vote>, floor: nat, n: nat)
    requires n <= |k.finalPreprepares| && QLogged(log, votes, floor)
    ensures QLogged(ReadyLog(log, k, n), votes, floor)
  {
    hide QLogged;
    if n > 0 {
      ReadyLogged(log, k, votes, floor, n - 1);
      AppendKeepsQLogged(ReadyLog(log, k, n - 1), PEntry(k.startingCheckpoint.seqNo + n, k.finalPreprepares[n - 1]), votes,
                         floor);
    }
  }

  lemma SuffixKeepsQLoggedAt(drop: Log, rest: Log, low: nat, v: Vote)
    requires Stale(drop, low) && TaggedAbove(rest, low) && QLoggedAt(drop + rest, v) && v.seqNo > low
    ensures QLoggedAt(rest, v)
  {
    var log := drop + rest;
    var i :| 0 <= i < |log| && log[i].QEntry? && VoteAt(log, i) == v;
    if i < |drop| {
      assert false;
    }
    SuffixReportAt(drop, rest, Preprepared, i - |drop|);
    assert ReportAt(rest, i - |drop|) == ReportAt(log, i);
    assert VoteAt(rest, i - |drop|) == VoteAt(log, i);
  }

  lemma TruncateKeepsQLogged(log: Log, ci: nat, floor: nat, low: nat, votes: set<Vote>)
    requires WellFormed(log, ci, floor) && QLogged(log, votes, floor)
    requires floor <= low && Aligned(low, ci) && FirstStop(log, low) < |log|
    ensures QLogged(Truncated(log, low), votes, low)
  {
    hide WellFormed;
    hide Covered;
    hide Aligned;
    hide Stale;
    hide TaggedAbove;
    hide QLoggedAt;
    hide FirstStop;
    var k := FirstStop(log, low);
    CoveredAbove(log, ci, floor, low);
    DropIsStale(log, ci, low);
    KeptIsTagged(log, ci, low, k);
    assert log == log[..k] + log[k..];
    forall v | v in votes && v.seqNo > low ensures QLoggedAt(log[k..], v) {
      SuffixKeepsQLoggedAt(log[..k], log[k..], low, v);
    }
  }

  /** The epoch change that a replica sends reports every Q entry that still matters. */
  lemma EpochChangeComplete(c: NetworkConfig, r: Replica, e: nat)
    requires VotingInv(c, r) && ReportsInv(r) && e > r.epoch && EpochChangeOf(r.log, e).Some?
    ensures Complete(r.preprepares, e, EpochChangeOf(r.log, e).value)
  {
    hide Voted;
    hide PLogged;
    hide VoteReport;
    hide VotesJustified;
    hide ChangesFaithful;
    var log := r.log;
    EpochChangeFaithful(c, r, e);
    WholeLogReported(log, r.epoch, e);
    var m := EpochChangeOf(log, e).value;
    LowestIsLeast(m.checkpoints);
    forall x | x in m.checkpoints ensures x.seqNo >= r.floor {
      CReportContent(log, |log|, x);
    }
    forall v | v in r.preprepares && v.epoch < e && v.seqNo > Parsed(m).lowWatermark
      ensures SetEntry(v.epoch, v.seqNo, v.digest) in m.qSet
    {
      assert QLoggedAt(log, v);
      var i :| 0 <= i < |log| && log[i].QEntry? && VoteAt(log, i) == v;
      ReportContent(log, |log|, Preprepared, ReportAt(log, i));
    }
  }

  lemma LaterVotesComplete(r: Replica, r': Replica)
    requires (forall e :: e in r.changes ==> e <= r.epoch && Complete(r.preprepares, e, r.changes[e]))
    requires r'.changes == r.changes && forall v :: v in r'.preprepares && v !in r.preprepares ==> v.epoch >= r.epoch
    ensures forall e :: e in r'.changes ==> Complete(r'.preprepares, e, r'.changes[e])
  {
    hide Parsed;
    forall e | e in r'.changes ensures Complete(r'.preprepares, e, r'.changes[e]) {
      assert Complete(r.preprepares, e, r.changes[e]);
    }
  }

  lemma ActiveTag(c: NetworkConfig, r: Replica, s: nat)
    requires LogInv(c, r) && r.phase == Active && c.checkpointInterval > 0 && Opened(r.log, c.checkpointInterval, s)
    ensures Tag(r.log) == Some(r.epoch)
  {
    hide LogState;
    var j :| 0 <= j < |r.log| && r.log[j].NEntry? && Block(r.log[j].seqNo, s, c.checkpointInterval);
    TagAfter(r.log, j);
  }

  lemma {:induction false} TagAfter(log: Log, j: nat)
    requires j < |log| && EpochOf(log[j]).Some?
    ensures Tag(log).Some?
  {
    if j < |log| - 1 && EpochOf(Last(log)).None? {
      TagAfter(Init(log), j);
    }
  }

  lemma StepKeepsQLogged(c: NetworkConfig, r: Replica, r': Replica, step: Step)
    requires VotingInv(c, r) && ReportsInv(r) && Takes(c, r, r', step)
    ensures QLogged(r'.log, r'.preprepares, r'.floor)
  {
    hide QLogged;
    hide WellFormed;
    hide Voted;
    hide PLogged;
    hide VotesInOrder;
    hide VotesJustified;
    hide ChangesFaithful;
    hide CarriedVotes;
    hide EpochChangeOf;
    hide AfterChange;
    hide Opened;
    hide Aligned;
    hide FirstStop;
    hide Truncated;
    hide TagIs;
    hide FreshTag;
    var log, votes, floor := r.log, r.preprepares, r.floor;
    match step {
      case Begin(e) => AppendKeepsQLogged(log, ECEntry(e), votes, floor);
      case Lead(k) =>
      case Echo(k, batch) => EchoLogged(c, log, k, StopAt(c, r), batch, votes, floor, |k.finalPreprepares|);
      case ReadyByEchoes(k) => ReadyLogged(log, k, votes, floor, |k.finalPreprepares|);
      case ReadyByReadies(k) =>
      case Deliver(k) =>
      case Start =>
      case Open(n, config) => AppendKeepsQLogged(log, NEntry(n, config), votes, floor);
      case Propose(s, d, requests) =>
        ActiveTag(c, r, s);
        AppendQLogged(log, r.epoch, s, d, requests, votes, floor);
      case Commit(s, d) => AppendKeepsQLogged(log, PEntry(s, d), votes, floor);
      case Request =>
      case Checkpointed(value) =>
        AppendKeepsQLogged(log, CEntry(r.lastCheckpoint + c.checkpointInterval, value), votes, floor);
      case Truncate(low) =>
        var i :| 0 <= i < |log| && log[i].CEntry? && log[i].seqNo == low;
        CheckpointStops(c.checkpointInterval, log, floor, low, i);
        TruncateKeepsQLogged(log, c.checkpointInterval, floor, low, votes);
    }
  }

  lemma StepKeepsReports(c: NetworkConfig, r: Replica, r': Replica, step: Step)
    requires VotingInv(c, r) && ReportsInv(r) && Takes(c, r, r', step)
    ensures ReportsInv(r')
  {
    hide QLogged;
    hide Complete;
    hide LogInv;
    hide Voted;
    hide PLogged;
    hide VotesInOrder;
    hide VotesJustified;
    hide Faithful;
    hide EchoLog;
    hide ReadyLog;
    hide EpochChangeOf;
    hide AfterChange;
    hide Opened;
    hide Aligned;
    StepKeepsQLogged(c, r, r', step);
    if step.Begin? {
      EpochChangeComplete(c, r, step.epoch);
    } else {
      LaterVotesComplete(r, r');
    }
  }

  // ---------------------------------------------------------------- every step

  /** The steps of a correct replica; the network adds what other nodes must have said. */
  datatype Step =
    | Begin(epoch: nat)
    | Lead(offered: NewEpochConfig)
    | Echo(config: NewEpochConfig, batch: Digest -> seq<RequestAck>)
    | ReadyByEchoes(readied: NewEpochConfig)
    | ReadyByReadies(readied: NewEpochConfig)
    | Deliver(network: NewEpochConfig)
    | Start
    | Open(first: nat, epochConfig: EpochConfig)
    | Propose(seqNo: nat, digest: Digest, requests: seq<RequestAck>)
    | Commit(seqNo: nat, digest: Digest)
    | Request
    | Checkpointed(value: nat)
    | Truncate(low: nat)

  ghost predicate Takes(c: NetworkConfig, r: Replica, r': Replica, step: Step) {
    match step
    case Begin(e) => BeginEpochChange(c, r, r', e)
    case Lead(k) => LeadConfig(r, r', k)
    case Echo(k, batch) => EchoConfig(c, r, r', k, batch)
    case ReadyByEchoes(k) => ReadyOnEchoes(c, r, r', k)
    case ReadyByReadies(k) => ReadyOnReadies(r, r', k)
    case Deliver(k) => DeliverConfig(r, r', k)
    case Start => StartEpoch(r, r')
    case Open(n, config) => OpenInterval(c, r, r', n, config)
    case Propose(s, d, requests) => Preprepare(c, r, r', s, d, requests)
    case Commit(s, d) => Prepare(c, r, r', s, d)
    case Request => RequestCheckpoint(r, r')
    case Checkpointed(value) => TakeCheckpoint(c, r, r', value)
    case Truncate(low) => TruncateLog(c, r, r', low)
  }

  /** Steps that write nothing. */
  lemma SilentKeepsVoting(c: NetworkConfig, r: Replica, r': Replica, step: Step)
    requires VotingInv(c, r) && Takes(c, r, r', step)
    requires step.Lead? || step.ReadyByReadies? || step.Deliver? || step.Start? || step.Request?
    ensures VotingInv(c, r')
  {
    hide LogState;
    hide Voted;
    hide PLogged;
    hide VoteJustified;
    hide CarriedVotes;
    hide Faithful;
    hide AfterChange;
    hide Above;
  }

  lemma StepKeepsVoting(c: NetworkConfig, r: Replica, r': Replica, step: Step)
    requires VotingInv(c, r) && CheckpointsInv(r) && Takes(c, r, r', step)
    ensures VotingInv(c, r')
  {
    hide VotingInv;
    hide CheckpointsInv;
    match step {
      case Begin(e) => BeginKeepsInv(c, r, r', e);
      case Echo(k, batch) => EchoKeepsInv(c, r, r', k, batch);
      case ReadyByEchoes(k) => ReadyKeepsInv(c, r, r', k);
      case Open(n, config) => OpenKeepsInv(c, r, r', n, config);
      case Propose(s, d, requests) => PreprepareKeepsInv(c, r, r', s, d, requests);
      case Commit(s, d) => PrepareKeepsInv(c, r, r', s, d);
      case Checkpointed(value) => CheckpointKeepsInv(c, r, r', value);
      case Truncate(low) => TruncateKeepsInv(c, r, r', low);
      case _ => SilentKeepsVoting(c, r, r', step);
    }
  }

  /** Every step keeps the log well formed and in agreement with all that was ever voted for, every
      epoch change sent so far faithful to the votes before it, and the Q entries that delivery will
      commit equal to the echoed digests. */
  lemma StepKeepsInv(c: NetworkConfig, r: Replica, r': Replica, step: Step)
    requires ReplicaInv(c, r) && Takes(c, r, r', step)
    ensures ReplicaInv(c, r')
  {
    hide VotingInv;
    hide DeliveredJustified;
    hide PreparesJustified;
    hide CheckpointsInv;
    hide TailInv;
    hide OffersInv;
    hide ReportsInv;
    hide Takes;
    StepKeepsVoting(c, r, r', step);
    StepKeepsPrepares(c, r, r', step);
    StepKeepsDelivered(c, r, r', step);
    StepKeepsTail(c, r, r', step);
    StepKeepsOffers(c, r, r', step);
    StepKeepsReports(c, r, r', step);
  }

  lemma InitialInv(c: NetworkConfig, value: nat, config: EpochConfig)
    requires c.checkpointInterval > 0
    ensures ReplicaInv(c, Initial(value, config))
  {
    var log := Initial(value, config).log;
    assert log[0] == CEntry(0, value) && log[1] == FEntry(config);
    assert log[0].CEntry?;
  }
}
