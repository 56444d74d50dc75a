/** Building runs of a network one step at a time, by what each replica's log reads as. */
module Scenarios {
  import opened Types
  import opened Quorums
  import opened Intervals
  import opened EpochChanges
  import opened NewEpochConfigs
  import opened WriteAheadLog
  import opened ReplicaVotes
  import opened EpochChain

  // ---------------------------------------------------------------- reading a log

  /** What an epoch change constructed from a log holds, with the epoch of its last N or F entry. */
  datatype Content = Content(tag: nat, checkpoints: seq<Checkpoint>, prepared: seq<SetEntry>, preprepared: seq<SetEntry>)

  ghost predicate Reads(log: Log, x: Content) {
    && Tag(log) == Some(x.tag) && EpochsUpTo(log, x.tag) && !Untagged(log, |log|)
    && CReport(log, |log|) == x.checkpoints
    && VoteReport(log, |log|, Prepared) == x.prepared
    && VoteReport(log, |log|, Preprepared) == x.preprepared
  }

  function ChangeFor(x: Content, e: nat): EpochChange {
    EpochChange(e, x.checkpoints, x.prepared, x.preprepared)
  }

  lemma ReadsChange(log: Log, x: Content, e: nat)
    requires Reads(log, x) && e > x.tag
    ensures EpochChangeOf(log, e) == Some(ChangeFor(x, e))
  {
    hide Tag;
    hide Untagged;
    hide CReport;
    hide VoteReport;
    WholeLogReported(log, x.tag, e);
  }

  function Extended(x: Content, entry: Entry): Content {
    match entry
    case QEntry(s, d, _) => x.(preprepared := x.preprepared + [SetEntry(x.tag, s, d)])
    case PEntry(s, d) => x.(prepared := x.prepared + [SetEntry(x.tag, s, d)])
    case CEntry(s, value) => x.(checkpoints := x.checkpoints + [Checkpoint(s, value)])
    case NEntry(_, config) => x.(tag := config.number)
    case FEntry(config) => x.(tag := config.number)
    case _ => x
  }

  predicate Mentions(entries: seq<SetEntry>, s: nat) {
    exists y :: y in entries && y.seqNo == s
  }

  lemma {:induction false} LastPReported(log: Log, i: nat)
    requires i < |log| && log[i].PEntry?
    ensures Mentions(VoteReport(log, |log|, Prepared), log[i].seqNo)
    decreases |log| - i
  {
    if IsLastP(log, i) {
      ReportContent(log, |log|, Prepared, ReportAt(log, i));
      assert ReportAt(log, i) in VoteReport(log, |log|, Prepared);
    } else {
      var j :| i < j < |log| && log[j].PEntry? && log[j].seqNo == log[i].seqNo;
      LastPReported(log, j);
    }
  }

  lemma {:induction false} ReportPrefix(log: Log, entry: Entry, k: nat, kind: Kind)
    requires k <= |log|
    requires forall i :: 0 <= i < |log| && log[i].PEntry? && entry.PEntry? ==> log[i].seqNo != entry.seqNo
    ensures VoteReport(log + [entry], k, kind) == VoteReport(log, k, kind)
    ensures CReport(log + [entry], k) == CReport(log, k)
  {
    if k > 0 {
      ReportPrefix(log, entry, k - 1, kind);
      var after := log + [entry];
      PrefixOfAppend(log, entry, k - 1);
      forall j | k - 1 < j < |after| && after[j].PEntry? && log[k - 1].PEntry? && j < |log| ensures after[j] == log[j] {
      }
      assert Reports(after, k - 1, kind) <==> Reports(log, k - 1, kind);
    }
  }

  lemma AppendTagged(log: Log, entry: Entry)
    requires !Untagged(log, |log|) && Tag(log).Some?
    ensures !Untagged(log + [entry], |log| + 1)
  {
    var after := log + [entry];
    forall i | 0 <= i < |after| && (after[i].QEntry? || IsLastP(after, i)) ensures Tag(after[..i]).Some? {
      PrefixOfAppend(log, entry, i);
      if i < |log| && IsLastP(after, i) {
        forall j | i < j < |log| && log[j].PEntry? ensures log[j].seqNo != log[i].seqNo {
          assert after[j] == log[j];
        }
        assert IsLastP(log, i);
      }
      assert i == |log| ==> log[..i] == log;
    }
  }

  lemma ReadsAppend(log: Log, entry: Entry, x: Content)
    requires Reads(log, x) && (EpochOf(entry).Some? ==> EpochOf(entry).value >= x.tag)
    requires entry.PEntry? ==> !Mentions(x.prepared, entry.seqNo)
    ensures Reads(log + [entry], Extended(x, entry))
  {
    hide Untagged;
    hide EpochsUpTo;
    var after := log + [entry];
    forall i | 0 <= i < |log| && log[i].PEntry? && entry.PEntry? ensures log[i].seqNo != entry.seqNo {
      LastPReported(log, i);
    }
    ReportPrefix(log, entry, |log|, Prepared);
    ReportPrefix(log, entry, |log|, Preprepared);
    AppendTag(log, entry);
    AppendTagged(log, entry);
    PrefixOfAppend(log, entry, |log|);
    assert log[..|log|] == log;
    hide Tag;
    assert entry.PEntry? ==> IsLastP(after, |log|);
    AppendEpochs(log, entry, x.tag, Extended(x, entry).tag);
  }

  lemma AppendEpochs(log: Log, entry: Entry, e: nat, e': nat)
    requires EpochsUpTo(log, e) && e <= e' && (EpochOf(entry).Some? ==> EpochOf(entry).value <= e')
    ensures EpochsUpTo(log + [entry], e')
  {
  }

  lemma KeepsIntervals(log: Log, entry: Entry)
    ensures forall n :: HasN(log, n) ==> HasN(log + [entry], n)
    ensures entry.NEntry? ==> HasN(log + [entry], entry.seqNo)
  {
    forall n | HasN(log, n) || (entry.NEntry? && entry.seqNo == n) ensures HasN(log + [entry], n) {
      AppendKeepsN(log, entry, n);
    }
  }

  // ---------------------------------------------------------------- steps of one replica

  function Changed(r: Replica, x: Content, e: nat): Replica {
    r.(log := r.log + [ECEntry(e)], epoch := e, phase := Changing, echoed := None,
       changes := r.changes[e := ChangeFor(x, e)])
  }

  lemma MayBegin(c: NetworkConfig, r: Replica, x: Content, e: nat)
    requires Reads(r.log, x) && e > x.tag && e > r.epoch && !r.pending
    ensures Takes(c, r, Changed(r, x, e), Begin(e))
    ensures Reads(Changed(r, x, e).log, x)
    ensures forall n :: HasN(r.log, n) ==> HasN(Changed(r, x, e).log, n)
  {
    hide Reads;
    hide HasN;
    ReadsChange(r.log, x, e);
    ReadsAppend(r.log, ECEntry(e), x);
    KeepsIntervals(r.log, ECEntry(e));
  }

  lemma MayLead(c: NetworkConfig, r: Replica, k: NewEpochConfig)
    requires r.phase == Changing && k.config.number == r.epoch && r.epoch in r.changes
    requires forall k' :: k' in r.led ==> k'.config.number != r.epoch
    ensures Takes(c, r, LedState(r, k), Lead(k))
  {
  }

  function CarriedEntries(k: NewEpochConfig, n: nat): seq<SetEntry>
    requires n <= |k.finalPreprepares|
  {
    seq(n, i requires 0 <= i < n => SetEntry(k.config.number, k.startingCheckpoint.seqNo + 1 + i, k.finalPreprepares[i]))
  }

  lemma {:induction false} EchoReads(c: NetworkConfig, log: Log, k: NewEpochConfig, stop: nat, x: Content, n: nat)
    requires c.checkpointInterval > 0 && n <= |k.finalPreprepares| && Reads(log, x) && k.config.number >= x.tag
    ensures
      var after := EchoLog(c, log, k, stop, NoRequests, n);
      && Reads(after, x.(tag := k.config.number, preprepared := x.preprepared + CarriedEntries(k, n)))
      && (forall m :: HasN(log, m) ==> HasN(after, m))
      && HasN(after, k.startingCheckpoint.seqNo + 1)
  {
    hide Reads;
    hide HasN;
    hide Aligned;
    var start, e := k.startingCheckpoint.seqNo, k.config.number;
    if n == 0 {
      var entry := NEntry(start + 1, k.config);
      ReadsAppend(log, entry, x);
      KeepsIntervals(log, entry);
      assert x.preprepared + CarriedEntries(k, 0) == x.preprepared;
    } else {
      EchoReads(c, log, k, stop, x, n - 1);
      var before, d := EchoLog(c, log, k, stop, NoRequests, n - 1), k.finalPreprepares[n - 1];
      var y := x.(tag := e, preprepared := x.preprepared + CarriedEntries(k, n - 1));
      var entry, next := QEntry(start + n, d, []), NEntry(start + n + 1, k.config);
      ReadsAppend(before, entry, y);
      KeepsIntervals(before, entry);
      ReadsAppend(before + [entry], next, Extended(y, entry));
      KeepsIntervals(before + [entry], next);
      assert y.preprepared + [SetEntry(e, start + n, d)] == x.preprepared + CarriedEntries(k, n);
    }
  }

  lemma MayEcho(c: NetworkConfig, r: Replica, x: Content, k: NewEpochConfig)
    requires Reads(r.log, x) && c.checkpointInterval > 0 && r.phase == Changing
    requires k.config.number == r.epoch && r.epoch in r.changes && r.epoch >= x.tag
    requires Aligned(k.startingCheckpoint.seqNo, c.checkpointInterval) && k.startingCheckpoint.seqNo <= r.lastCheckpoint
    requires |k.finalPreprepares| <= Window(c) && SecondIntervalOpened(c, r.log, k)
    ensures
      var after := EchoedState(c, r, k);
      && Takes(c, r, after, Echo(k, NoRequests))
      && Reads(after.log, x.(tag := r.epoch, preprepared := x.preprepared + CarriedEntries(k, |k.finalPreprepares|)))
      && (forall n :: HasN(r.log, n) ==> HasN(after.log, n))
      && HasN(after.log, k.startingCheckpoint.seqNo + 1)
  {
    hide Reads;
    hide HasN;
    EchoReads(c, r.log, k, StopAt(c, r), x, |k.finalPreprepares|);
  }

  /** Echoing opens the second interval if the first one ends in a digest. */
  lemma EchoOpens(c: NetworkConfig, log: Log, k: NewEpochConfig, stop: nat, n: nat)
    requires 0 < c.checkpointInterval <= n <= |k.finalPreprepares|
    requires k.finalPreprepares[c.checkpointInterval - 1] != NullDigest
    requires Aligned(k.startingCheckpoint.seqNo, c.checkpointInterval)
    requires k.startingCheckpoint.seqNo + c.checkpointInterval < stop
    ensures HasN(EchoLog(c, log, k, stop, NoRequests, n), SecondStart(c, k))
  {
    hide HasN;
    var before := EchoLog(c, log, k, stop, NoRequests, n - 1);
    var s := k.startingCheckpoint.seqNo + n;
    if n == c.checkpointInterval {
      assert Aligned(s, c.checkpointInterval);
      KeepsIntervals(before + [QEntry(s, k.finalPreprepares[n - 1], [])], NEntry(s + 1, k.config));
    } else {
      EchoOpens(c, log, k, stop, n - 1);
      var entry := QEntry(s, k.finalPreprepares[n - 1], []);
      KeepsIntervals(before, entry);
      KeepsIntervals(before + [entry], NEntry(s + 1, k.config));
    }
  }

  lemma {:induction false} ReadyReads(log: Log, k: NewEpochConfig, x: Content, n: nat)
    requires n <= |k.finalPreprepares| && Reads(log, x) && x.tag == k.config.number
    requires forall y :: y in x.prepared ==> y.seqNo <= k.startingCheckpoint.seqNo || y.seqNo > End(k)
    ensures Reads(ReadyLog(log, k, n), x.(prepared := x.prepared + CarriedEntries(k, n)))
    ensures forall m :: HasN(log, m) ==> HasN(ReadyLog(log, k, n), m)
  {
    hide Reads;
    hide HasN;
    var start := k.startingCheckpoint.seqNo;
    if n == 0 {
      assert x.prepared + CarriedEntries(k, 0) == x.prepared;
    } else {
      ReadyReads(log, k, x, n - 1);
      var before, y := ReadyLog(log, k, n - 1), x.(prepared := x.prepared + CarriedEntries(k, n - 1));
      var entry := PEntry(start + n, k.finalPreprepares[n - 1]);
      assert !Mentions(y.prepared, start + n);
      ReadsAppend(before, entry, y);
      KeepsIntervals(before, entry);
      assert y.prepared + [SetEntry(x.tag, start + n, k.finalPreprepares[n - 1])] == x.prepared + CarriedEntries(k, n);
    }
  }

  lemma MayReady(c: NetworkConfig, r: Replica, k: NewEpochConfig)
    requires c.checkpointInterval > 0 && r.phase == Echoed && k.config.number == r.epoch
    requires forall s :: k.startingCheckpoint.seqNo < s <= End(k) ==> Opened(r.log, c.checkpointInterval, s)
    ensures Takes(c, r, ReadiedState(r, k), ReadyByEchoes(k))
  {
  }

  lemma MayJoin(c: NetworkConfig, r: Replica, k: NewEpochConfig)
    requires r.phase == Echoed && k.config.number == r.epoch
    ensures Takes(c, r, JoinedState(r, k), ReadyByReadies(k))
  {
  }

  lemma MayDeliver(c: NetworkConfig, r: Replica, k: NewEpochConfig)
    requires r.phase == Readied && k.config.number == r.epoch
    ensures Takes(c, r, DeliveredState(r, k), Deliver(k))
  {
  }

  lemma MayStart(c: NetworkConfig, r: Replica)
    requires r.phase == Delivered && r.echoed.Some? && r.lastCheckpoint == End(r.echoed.value)
    ensures Takes(c, r, StartedState(r), Start)
  {
  }

  lemma MayOpenInterval(c: NetworkConfig, r: Replica, n: nat, config: EpochConfig)
    requires c.checkpointInterval > 0 && r.phase == Active && r.epoch == config.number
    requires n >= 1 && Aligned(n - 1, c.checkpointInterval) && n - 1 < StopAt(c, r)
    ensures
      var after := OpenedState(r, n, config);
      && Takes(c, r, after, Open(n, config))
      && (forall m :: HasN(r.log, m) ==> HasN(after.log, m)) && HasN(after.log, n)
  {
    hide HasN;
    KeepsIntervals(r.log, NEntry(n, config));
  }

  lemma OpenReads(r: Replica, x: Content, n: nat, config: EpochConfig)
    requires Reads(r.log, x) && x.tag == config.number
    ensures Reads(OpenedState(r, n, config).log, x)
  {
    hide Reads;
    ReadsAppend(r.log, NEntry(n, config), x);
  }

  lemma IntervalOpens(log: Log, ci: nat, n: nat, s: nat)
    requires ci > 0 && HasN(log, n) && n >= 1 && Aligned(n - 1, ci) && n <= s < n + ci
    ensures Opened(log, ci, s)
  {
    var j :| 0 <= j < |log| && log[j].NEntry? && log[j].seqNo == n;
    assert Block(log[j].seqNo, s, ci);
  }

  lemma CheckpointReads(c: NetworkConfig, r: Replica, x: Content, value: nat)
    requires Reads(r.log, x)
    ensures
      var next := r.lastCheckpoint + c.checkpointInterval;
      Reads(CheckpointedState(c, r, value).log, x.(checkpoints := x.checkpoints + [Checkpoint(next, value)]))
  {
    hide Reads;
    ReadsAppend(r.log, CEntry(r.lastCheckpoint + c.checkpointInterval, value), x);
  }
}
