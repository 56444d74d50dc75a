/** The persisted log: appending, truncating, and reading an epoch change back out of it. */
module WriteAheadLog {
  import opened Types
  import opened EpochChanges
  import opened Intervals

  datatype Entry =
    | QEntry(seqNo: nat, digest: Digest, requests: seq<RequestAck>)
    | PEntry(seqNo: nat, digest: Digest)
    | CEntry(seqNo: nat, value: nat)
    | NEntry(seqNo: nat, epochConfig: EpochConfig)
    | FEntry(endsEpochConfig: EpochConfig)
    | ECEntry(epochNumber: nat)
    | TEntry(seqNo: nat, value: nat)
    | Suspect(epoch: nat)

  type Log = seq<Entry>

  // ---------------------------------------------------------------- what an epoch change reports

  function EpochOf(entry: Entry): Option<nat> {
    match entry
    case NEntry(_, config) => Some(config.number)
    case FEntry(config) => Some(config.number)
    case _ => None
  }

  /** The epoch of the last N or F entry. */
  function Tag(log: Log): Option<nat> {
    if log == [] then None
    else if EpochOf(Last(log)).Some? then EpochOf(Last(log))
    else Tag(Init(log))
  }

  predicate Ends(entry: Entry, newEpoch: nat) {
    EpochOf(entry).Some? && EpochOf(entry).value >= newEpoch
  }

  /** How many entries are read: up to and including the first one of an epoch at or above the new one. */
  function Cut(log: Log, newEpoch: nat): (k: nat)
    ensures k <= |log|
  {
    if log == [] then 0
    else if Ends(log[0], newEpoch) then 1
    else 1 + Cut(log[1..], newEpoch)
  }

  function Reported(log: Log, newEpoch: nat): Log {
    log[..Cut(log, newEpoch)]
  }

  predicate IsVote(entry: Entry) {
    entry.QEntry? || entry.PEntry?
  }

  /** The entry at `i` is a P entry and no later one has its sequence number. */
  predicate IsLastP(log: Log, i: nat)
    requires i < |log|
  {
    log[i].PEntry? && forall j :: i < j < |log| && log[j].PEntry? ==> log[j].seqNo != log[i].seqNo
  }

  function TagOr(log: Log, other: nat): nat {
    if Tag(log).Some? then Tag(log).value else other
  }

  datatype Kind = Prepared | Preprepared

  /** Of the P entries only the last per sequence number is reported, of the Q entries all are. */
  predicate Reports(log: Log, i: nat, kind: Kind)
    requires i < |log|
  {
    if kind.Prepared? then IsLastP(log, i) else log[i].QEntry?
  }

  function ReportAt(log: Log, i: nat): SetEntry
    requires i < |log| && IsVote(log[i])
  {
    SetEntry(TagOr(log[..i], 0), log[i].seqNo, log[i].digest)
  }

  function VoteReport(log: Log, k: nat, kind: Kind): seq<SetEntry>
    requires k <= |log|
  {
    if k == 0 then []
    else VoteReport(log, k - 1, kind) + if Reports(log, k - 1, kind) then [ReportAt(log, k - 1)] else []
  }

  function CReport(log: Log, k: nat): seq<Checkpoint>
    requires k <= |log|
  {
    if k == 0 then []
    else CReport(log, k - 1)
         + if log[k - 1].CEntry? then [Checkpoint(log[k - 1].seqNo, log[k - 1].value)] else []
  }

  /** An entry whose epoch is needed before any epoch is known: the source dereferences nil there. */
  ghost predicate Untagged(log: Log, k: nat)
    requires k <= |log|
  {
    exists i :: 0 <= i < k && (log[i].QEntry? || IsLastP(log, i)) && Tag(log[..i]).None?
  }

  ghost function EpochChangeOf(log: Log, newEpoch: nat): Option<EpochChange> {
    var read := Reported(log, newEpoch);
    if Untagged(read, |read|) then None
    else Some(EpochChange(newEpoch, CReport(read, |read|),
                          VoteReport(read, |read|, Prepared), VoteReport(read, |read|, Preprepared)))
  }

  function CountP(log: Log, s: nat): nat {
    if log == [] then 0
    else CountP(log[1..], s) + if log[0].PEntry? && log[0].seqNo == s then 1 else 0
  }

  lemma {:induction false} CountPAppend(log: Log, entry: Entry, s: nat)
    ensures CountP(log + [entry], s) == CountP(log, s) + if entry.PEntry? && entry.seqNo == s then 1 else 0
  {
    if log == [] {
      assert log + [entry] == [entry];
      assert [entry][1..] == [];
    } else {
      CountPAppend(log[1..], entry, s);
      assert (log + [entry])[1..] == log[1..] + [entry];
    }
  }

  lemma {:induction false} CountPPositive(log: Log, s: nat)
    ensures CountP(log, s) > 0 <==> exists j :: 0 <= j < |log| && log[j].PEntry? && log[j].seqNo == s
  {
    if log != [] {
      CountPPositive(log[1..], s);
      if CountP(log[1..], s) > 0 {
        var j :| 0 <= j < |log[1..]| && log[1..][j].PEntry? && log[1..][j].seqNo == s;
        assert log[j + 1] == log[1..][j];
      }
      if j :| 0 <= j < |log| && log[j].PEntry? && log[j].seqNo == s {
        if j > 0 {
          assert log[1..][j - 1] == log[j];
        }
      }
    }
  }

  lemma LastPByCount(log: Log, i: nat)
    requires i < |log| && log[i].PEntry?
    ensures IsLastP(log, i) <==> CountP(log[i..], log[i].seqNo) == 1
    ensures CountP(log[i..], log[i].seqNo) == CountP(log[i + 1..], log[i].seqNo) + 1
  {
    var rest := log[i + 1..];
    assert log[i..][0] == log[i] && log[i..][1..] == rest;
    CountPPositive(rest, log[i].seqNo);
    assert forall j :: i < j < |log| ==> log[j] == rest[j - i - 1];
    if !IsLastP(log, i) {
      var j :| i < j < |log| && log[j].PEntry? && log[j].seqNo == log[i].seqNo;
      assert rest[j - i - 1].PEntry?;
    } else if CountP(rest, log[i].seqNo) > 0 {
      assert false;
    }
  }

  function Get(m: map<nat, nat>, k: nat): nat {
    if k in m then m[k] else 0
  }

  ghost predicate Tallies(skips: map<nat, nat>, log: Log) {
    forall s :: Get(skips, s) == CountP(log, s)
  }

  lemma TalliesStep(skips: map<nat, nat>, log: Log, entry: Entry)
    requires Tallies(skips, log)
    ensures entry.PEntry? ==> Tallies(skips[entry.seqNo := Get(skips, entry.seqNo) + 1], log + [entry])
    ensures !entry.PEntry? ==> Tallies(skips, log + [entry])
  {
    forall s ensures CountP(log + [entry], s) == Get(skips, s) + if entry.PEntry? && entry.seqNo == s then 1 else 0 {
      CountPAppend(log, entry, s);
    }
  }

  /** The first pass counts P entries per sequence number over the part that will be reported. */
  method CountPEntries(log: Log, newEpoch: nat) returns (skips: map<nat, nat>)
    ensures Tallies(skips, Reported(log, newEpoch))
  {
    skips := map[];
    var k := 0;
    var logEpoch: Option<nat> := None;
    while k < |log|
      invariant k <= |log| && Cut(log, newEpoch) == k + Cut(log[k..], newEpoch)
      invariant logEpoch == Tag(log[..k]) && (logEpoch.Some? ==> logEpoch.value < newEpoch)
      invariant Tallies(skips, log[..k])
    {
      var entry := log[k];
      PrefixStep(log, k);
      assert log[k..][0] == entry && log[k..][1..] == log[k + 1..];
      assert log[..k + 1] == log[..k] + [entry];
      TalliesStep(skips, log[..k], entry);
      match entry {
        case PEntry(s, _) => skips := skips[s := Get(skips, s) + 1];
        case NEntry(_, config) => logEpoch := Some(config.number);
        case FEntry(config) => logEpoch := Some(config.number);
        case _ =>
      }
      if logEpoch.Some? && logEpoch.value >= newEpoch {
        return;
      }
      k := k + 1;
    }
  }

  /** The table says, for every sequence number still to come, how many of its P entries remain. */
  ghost predicate Remaining(skips: map<nat, nat>, rest: Log) {
    forall s :: CountP(rest, s) > 0 ==> Get(skips, s) == CountP(rest, s)
  }

  lemma RemainingStep(skips: map<nat, nat>, rest: Log)
    requires rest != [] && Remaining(skips, rest)
    ensures !rest[0].PEntry? ==> Remaining(skips, rest[1..])
    ensures rest[0].PEntry? ==>
              var s := rest[0].seqNo;
              && Get(skips, s) == CountP(rest, s) > 0
              && (CountP(rest, s) > 1 ==> Remaining(skips[s := Get(skips, s) - 1], rest[1..]))
              && (CountP(rest, s) == 1 ==> Remaining(skips, rest[1..]))
  {
    forall t ensures CountP(rest, t) == CountP(rest[1..], t) + if rest[0].PEntry? && rest[0].seqNo == t then 1 else 0 {
    }
    if rest[0].PEntry? {
      var s := rest[0].seqNo;
      assert CountP(rest, s) > 0;
      if CountP(rest, s) > 1 {
        var next := skips[s := Get(skips, s) - 1];
        forall t | CountP(rest[1..], t) > 0 ensures Get(next, t) == CountP(rest[1..], t) {
          assert CountP(rest, t) > 0;
        }
      }
    }
  }

  lemma MissingTag(read: Log, i: nat)
    requires i < |read| && (read[i].QEntry? || IsLastP(read, i)) && Tag(read[..i]).None?
    ensures Untagged(read, |read|)
  {
  }

  /** The two passes together produce the declarative report, or fail exactly where it is undefined. */
  method ConstructEpochChange(log: Log, newEpoch: nat) returns (r: Option<EpochChange>)
    ensures r == EpochChangeOf(log, newEpoch)
  {
    var skips := CountPEntries(log, newEpoch);
    ghost var read := Reported(log, newEpoch);
    var k := 0;
    var logEpoch: Option<nat> := None;
    var checkpoints: seq<Checkpoint>, pSet: seq<SetEntry>, qSet: seq<SetEntry> := [], [], [];
    while k < |log|
      invariant k <= |log| && |read| == k + Cut(log[k..], newEpoch)
      invariant logEpoch == Tag(log[..k]) && (logEpoch.Some? ==> logEpoch.value < newEpoch)
      invariant Remaining(skips, read[k..])
      invariant checkpoints == CReport(read, k)
      invariant pSet == VoteReport(read, k, Prepared) && qSet == VoteReport(read, k, Preprepared)
      invariant !Untagged(read, k)
    {
      var entry := log[k];
      PrefixStep(log, k);
      assert log[k..][0] == entry && log[k..][1..] == log[k + 1..];
      assert read[k] == entry && read[..k] == log[..k];
      assert read[k..][0] == entry && read[k..][1..] == read[k + 1..];
      RemainingStep(skips, read[k..]);
      match entry {
        case PEntry(s, d) =>
          LastPByCount(read, k);
          var count := Get(skips, s);
          if count != 1 {
            skips := skips[s := count - 1];
          } else {
            if logEpoch.None? {
              MissingTag(read, k);
              return None;
            }
            pSet := pSet + [SetEntry(logEpoch.value, s, d)];
          }
        case QEntry(s, d, _) =>
          if logEpoch.None? {
            MissingTag(read, k);
            return None;
          }
          qSet := qSet + [SetEntry(logEpoch.value, s, d)];
        case CEntry(s, v) => checkpoints := checkpoints + [Checkpoint(s, v)];
        case NEntry(_, config) => logEpoch := Some(config.number);
        case FEntry(config) => logEpoch := Some(config.number);
        case _ =>
      }
      k := k + 1;
      assert !Untagged(read, k) && checkpoints == CReport(read, k);
      assert pSet == VoteReport(read, k, Prepared) && qSet == VoteReport(read, k, Preprepared);
      if logEpoch.Some? && logEpoch.value >= newEpoch {
        break;
      }
    }
    assert k == |read|;
    r := Some(EpochChange(newEpoch, checkpoints, pSet, qSet));
  }

  // ---------------------------------------------------------------- content of the report

  lemma {:induction false} ReportContent(log: Log, k: nat, kind: Kind, x: SetEntry)
    requires k <= |log|
    ensures x in VoteReport(log, k, kind) <==>
            exists i :: 0 <= i < k && Reports(log, i, kind) && x == ReportAt(log, i)
  {
    if k > 0 {
      ReportContent(log, k - 1, kind, x);
    }
  }

  lemma {:induction false} CReportContent(log: Log, k: nat, x: Checkpoint)
    requires k <= |log|
    ensures x in CReport(log, k) <==> exists i :: 0 <= i < k && log[i] == CEntry(x.seqNo, x.value)
  {
    if k > 0 {
      CReportContent(log, k - 1, x);
    }
  }

  lemma {:induction false} CReportDistinct(log: Log, k: nat)
    requires k <= |log|
    requires forall i, j :: 0 <= i < j < |log| && log[i].CEntry? && log[j].CEntry? ==> log[i].seqNo < log[j].seqNo
    ensures DistinctCheckpoints(CReport(log, k))
  {
    if k > 0 {
      CReportDistinct(log, k - 1);
      if log[k - 1].CEntry? {
        forall x | x in CReport(log, k - 1) ensures x.seqNo < log[k - 1].seqNo {
          CReportContent(log, k - 1, x);
        }
      }
    }
  }

  lemma {:induction false} PReportDistinct(log: Log, k: nat)
    requires k <= |log|
    ensures DistinctSeqNos(VoteReport(log, k, Prepared))
  {
    if k > 0 {
      PReportDistinct(log, k - 1);
      forall x | x in VoteReport(log, k - 1, Prepared) && IsLastP(log, k - 1) ensures x.seqNo != log[k - 1].seqNo {
        ReportContent(log, k - 1, Prepared, x);
      }
    }
  }

  /** No two Q entries of one epoch share a sequence number. */
  ghost predicate NoRepeatedQ(log: Log, k: nat)
    requires k <= |log|
  {
    forall i, j :: 0 <= i < j < k && log[i].QEntry? && log[j].QEntry? && log[i].seqNo == log[j].seqNo ==>
                     TagOr(log[..i], 0) != TagOr(log[..j], 0)
  }

  lemma {:induction false} QReportDistinct(log: Log, k: nat)
    requires k <= |log|
    ensures DistinctSlots(VoteReport(log, k, Preprepared)) <==> NoRepeatedQ(log, k)
  {
    if k > 0 {
      QReportDistinct(log, k - 1);
      var before, after := VoteReport(log, k - 1, Preprepared), VoteReport(log, k, Preprepared);
      if log[k - 1].QEntry? {
        var x := ReportAt(log, k - 1);
        assert after == before + [x];
        if NoRepeatedQ(log, k) {
          forall y | y in before ensures y.seqNo != x.seqNo || y.epoch != x.epoch {
            ReportContent(log, k - 1, Preprepared, y);
          }
        }
        if DistinctSlots(after) {
          assert DistinctSlots(before) by {
            assert forall i :: 0 <= i < |before| ==> before[i] == after[i];
          }
          forall i | 0 <= i < k - 1 && log[i].QEntry? && log[i].seqNo == x.seqNo
            ensures TagOr(log[..i], 0) != x.epoch
          {
            var y := ReportAt(log, i);
            ReportContent(log, k - 1, Preprepared, y);
            var m :| 0 <= m < |before| && before[m] == y;
            assert after[m] == y && after[|before|] == x;
          }
        }
      } else {
        assert after == before;
      }
    }
  }

  /** A replica can parse its own epoch change exactly when the log it read holds a checkpoint and
      repeats no Q entry within an epoch. */
  lemma OwnEpochChangeParses(log: Log, newEpoch: nat)
    requires EpochChangeOf(log, newEpoch).Some?
    ensures Parseable(EpochChangeOf(log, newEpoch).value) <==>
            && NoRepeatedQ(Reported(log, newEpoch), |Reported(log, newEpoch)|)
            && exists i :: 0 <= i < |Reported(log, newEpoch)| && Reported(log, newEpoch)[i].CEntry?
  {
    var read := Reported(log, newEpoch);
    var m := EpochChangeOf(log, newEpoch).value;
    PReportDistinct(read, |read|);
    QReportDistinct(read, |read|);
    if m.checkpoints != [] {
      CReportContent(read, |read|, m.checkpoints[0]);
    }
    if i :| 0 <= i < |read| && read[i].CEntry? {
      CReportContent(read, |read|, Checkpoint(read[i].seqNo, read[i].value));
    }
  }

  // ---------------------------------------------------------------- truncation

  predicate Stops(entry: Entry, low: nat) {
    || (entry.CEntry? && entry.seqNo >= low)
    || (entry.NEntry? && entry.seqNo > low)
  }

  function FirstStop(log: Log, low: nat): (k: nat)
    ensures k <= |log|
    ensures forall i :: 0 <= i < k ==> !Stops(log[i], low)
    ensures k < |log| ==> Stops(log[k], low)
  {
    if log == [] || Stops(log[0], low) then 0
    else
      var k := FirstStop(log[1..], low);
      assert forall i :: 0 < i < 1 + k ==> log[i] == log[1..][i - 1];
      1 + k
  }

  /** The log after truncation: it starts at the first stop, or is unchanged if there is none. */
  function Truncated(log: Log, low: nat): Log {
    if FirstStop(log, low) == |log| then log else log[FirstStop(log, low)..]
  }

  predicate Block(n: nat, s: nat, ci: nat)
    requires ci > 0
  {
    n >= 1 && Aligned(n - 1, ci) && n <= s < n + ci
  }

  /** An N entry for the interval block of entry `i` comes before it. */
  ghost predicate CoveredAt(log: Log, i: nat, ci: nat)
    requires ci > 0 && i < |log| && IsVote(log[i])
  {
    exists j :: 0 <= j < i && log[j].NEntry? && Block(log[j].seqNo, log[i].seqNo, ci)
  }

  ghost predicate Covered(log: Log, ci: nat, floor: nat)
    requires ci > 0
  {
    forall i :: 0 <= i < |log| && IsVote(log[i]) && log[i].seqNo > floor ==> CoveredAt(log, i, ci)
  }

  ghost predicate Tagged(log: Log) {
    forall i :: 0 <= i < |log| && IsVote(log[i]) ==> Tag(log[..i]).Some?
  }

  lemma BlockAbove(n: nat, s: nat, ci: nat, r: nat)
    requires ci > 0 && Aligned(r, ci) && s > r && Block(n, s, ci)
    ensures n > r
  {
    if n - 1 < r {
      AlignedApart(n - 1, r, ci);
    }
  }

  lemma {:induction false} TagConcat(a: Log, b: Log)
    ensures Tag(a + b) == if Tag(b).Some? then Tag(b) else Tag(a)
    decreases |b|
  {
    if b == [] {
      assert a + b == a;
    } else {
      TagConcat(a, Init(b));
      assert Init(a + b) == a + Init(b) && Last(a + b) == Last(b);
    }
  }

  lemma {:induction false} TagFound(log: Log, j: nat)
    requires j < |log| && EpochOf(log[j]).Some?
    ensures Tag(log).Some?
  {
    if EpochOf(Last(log)).None? {
      TagFound(Init(log), j);
    }
  }

  lemma {:induction false} CutConcat(a: Log, b: Log, newEpoch: nat)
    requires forall i :: 0 <= i < |a| ==> !Ends(a[i], newEpoch)
    ensures Reported(a + b, newEpoch) == a + Reported(b, newEpoch)
  {
    if a == [] {
      assert a + b == b;
    } else {
      CutConcat(a[1..], b, newEpoch);
      assert (a + b)[1..] == a[1..] + b;
      assert (a + b)[0] == a[0];
      assert a == [a[0]] + a[1..];
      var n := Cut(a[1..] + b, newEpoch);
      assert Reported(a + b, newEpoch) == (a + b)[..1 + n] == [a[0]] + (a[1..] + b)[..n];
    }
  }

  /** Nothing above `r` is voted for, and no checkpoint at or above `r` taken, in the dropped part. */
  ghost predicate Stale(drop: Log, r: nat) {
    forall i :: 0 <= i < |drop| ==>
                  (IsVote(drop[i]) ==> drop[i].seqNo <= r) && (drop[i].CEntry? ==> drop[i].seqNo < r)
  }

  /** The votes above `r` in the kept part find their epoch there. */
  ghost predicate TaggedAbove(rest: Log, r: nat) {
    forall i :: 0 <= i < |rest| && IsVote(rest[i]) && rest[i].seqNo > r ==> Tag(rest[..i]).Some?
  }

  lemma LastPInSuffix(drop: Log, rest: Log, i: nat)
    requires i < |rest|
    ensures IsLastP(drop + rest, |drop| + i) <==> IsLastP(rest, i)
  {
    var log := drop + rest;
    assert forall j :: 0 <= j < |rest| ==> rest[j] == log[|drop| + j];
    assert forall j :: |drop| <= j < |log| ==> log[j] == rest[j - |drop|];
  }

  lemma SuffixReportAt(drop: Log, rest: Log, kind: Kind, i: nat)
    requires i < |rest|
    ensures (drop + rest)[|drop| + i] == rest[i]
    ensures Reports(drop + rest, |drop| + i, kind) <==> Reports(rest, i, kind)
    ensures IsVote(rest[i]) && Tag(rest[..i]).Some? ==> ReportAt(drop + rest, |drop| + i) == ReportAt(rest, i)
  {
    LastPInSuffix(drop, rest, i);
    assert (drop + rest)[..|drop| + i] == drop + rest[..i];
    TagConcat(drop, rest[..i]);
  }

  lemma SuffixReport(drop: Log, rest: Log, kind: Kind, r: nat, x: SetEntry)
    requires Stale(drop, r) && TaggedAbove(rest, r) && x.seqNo > r
    ensures x in VoteReport(drop + rest, |drop + rest|, kind) <==> x in VoteReport(rest, |rest|, kind)
  {
    var log := drop + rest;
    ReportContent(log, |log|, kind, x);
    ReportContent(rest, |rest|, kind, x);
    if i :| 0 <= i < |log| && Reports(log, i, kind) && x == ReportAt(log, i) {
      assert i >= |drop|;
      SuffixReportAt(drop, rest, kind, i - |drop|);
    }
    if i :| 0 <= i < |rest| && Reports(rest, i, kind) && x == ReportAt(rest, i) {
      SuffixReportAt(drop, rest, kind, i);
    }
  }

  lemma SuffixCheckpoints(drop: Log, rest: Log, r: nat, x: Checkpoint)
    requires Stale(drop, r) && x.seqNo >= r
    ensures x in CReport(drop + rest, |drop + rest|) <==> x in CReport(rest, |rest|)
  {
    var log := drop + rest;
    CReportContent(log, |log|, x);
    CReportContent(rest, |rest|, x);
    if i :| 0 <= i < |log| && log[i] == CEntry(x.seqNo, x.value) {
      assert i >= |drop|;
      assert rest[i - |drop|] == log[i];
    }
    if i :| 0 <= i < |rest| && rest[i] == CEntry(x.seqNo, x.value) {
      assert log[i + |drop|] == rest[i];
    }
  }

  /** The N entry that covers a vote above `r` is a stop for `r`. */
  lemma CoverStops(log: Log, ci: nat, r: nat, i: nat) returns (j: nat)
    requires ci > 0 && Aligned(r, ci) && Covered(log, ci, r)
    requires i < |log| && IsVote(log[i]) && log[i].seqNo > r
    ensures FirstStop(log, r) <= j < i && log[j].NEntry? && Block(log[j].seqNo, log[i].seqNo, ci)
  {
    assert CoveredAt(log, i, ci);
    j :| 0 <= j < i && log[j].NEntry? && Block(log[j].seqNo, log[i].seqNo, ci);
    BlockAbove(log[j].seqNo, log[i].seqNo, ci, r);
    assert Stops(log[j], r);
  }

  lemma DropIsStale(log: Log, ci: nat, r: nat)
    requires ci > 0 && Aligned(r, ci) && Covered(log, ci, r)
    ensures Stale(log[..FirstStop(log, r)], r)
  {
    forall i | 0 <= i < FirstStop(log, r) && IsVote(log[i]) ensures log[i].seqNo <= r {
      if log[i].seqNo > r {
        var j := CoverStops(log, ci, r, i);
      }
    }
  }

  lemma KeptVoteIsTagged(log: Log, ci: nat, r: nat, k: nat, i: nat)
    requires ci > 0 && Aligned(r, ci) && Covered(log, ci, r) && k == FirstStop(log, r)
    requires i < |log[k..]| && IsVote(log[k..][i]) && log[k..][i].seqNo > r
    ensures Tag(log[k..][..i]).Some?
  {
    hide Covered;
    hide Aligned;
    hide FirstStop;
    hide Tag;
    var rest := log[k..];
    SuffixAt(log, k, i, i);
    var j := CoverStops(log, ci, r, k + i);
    SuffixAt(log, k, j - k, j - k);
    assert rest[..i][j - k] == log[j];
    TagFound(rest[..i], j - k);
  }

  lemma KeptIsTagged(log: Log, ci: nat, r: nat, k: nat)
    requires ci > 0 && Aligned(r, ci) && Covered(log, ci, r) && k == FirstStop(log, r)
    ensures TaggedAbove(log[k..], r)
  {
    hide Covered;
    hide Aligned;
    hide FirstStop;
    hide Tag;
    var rest := log[k..];
    forall i | 0 <= i < |rest| && IsVote(rest[i]) && rest[i].seqNo > r ensures Tag(rest[..i]).Some? {
      KeptVoteIsTagged(log, ci, r, k, i);
    }
  }

  lemma CutIsTagged(rest: Log, newEpoch: nat, r: nat)
    requires TaggedAbove(rest, r)
    ensures TaggedAbove(Reported(rest, newEpoch), r)
  {
    var kept := Reported(rest, newEpoch);
    forall i | 0 <= i < |kept| && IsVote(kept[i]) && kept[i].seqNo > r ensures Tag(kept[..i]).Some? {
      assert kept[i] == rest[i] && kept[..i] == rest[..i];
    }
  }

  /** What is reported of a truncated log, with the stale part that was dropped. */
  lemma TruncationSplits(log: Log, ci: nat, r: nat, newEpoch: nat) returns (drop: Log, kept: Log)
    requires ci > 0 && Aligned(r, ci) && Covered(log, ci, r) && FirstStop(log, r) < |log|
    requires forall i :: 0 <= i < FirstStop(log, r) ==> !Ends(log[i], newEpoch)
    ensures Reported(log, newEpoch) == drop + kept && Reported(Truncated(log, r), newEpoch) == kept
    ensures Stale(drop, r) && TaggedAbove(kept, r)
  {
    hide Stale;
    hide TaggedAbove;
    hide Covered;
    hide Aligned;
    hide FirstStop;
    var k := FirstStop(log, r);
    drop := log[..k];
    var rest := log[k..];
    kept := Reported(rest, newEpoch);
    DropIsStale(log, ci, r);
    KeptIsTagged(log, ci, r, k);
    CutIsTagged(rest, newEpoch, r);
    assert log == drop + rest;
    CutConcat(drop, rest, newEpoch);
  }

  /** Truncating at a checkpoint loses nothing that a later epoch change must say: the same P and Q
      entries above `r`, with the same epochs, and the same checkpoints from `r` on. */
  lemma TruncationPreservesReport(log: Log, ci: nat, r: nat, newEpoch: nat, kind: Kind, x: SetEntry, y: Checkpoint)
    requires ci > 0 && Aligned(r, ci) && Covered(log, ci, r)
    requires forall i :: 0 <= i < FirstStop(log, r) < |log| ==> !Ends(log[i], newEpoch)
    ensures
      var before, after := Reported(log, newEpoch), Reported(Truncated(log, r), newEpoch);
      && (x.seqNo > r ==> (x in VoteReport(before, |before|, kind) <==> x in VoteReport(after, |after|, kind)))
      && (y.seqNo >= r ==> (y in CReport(before, |before|) <==> y in CReport(after, |after|)))
  {
    hide Stale;
    hide TaggedAbove;
    hide Covered;
    hide Aligned;
    hide Reported;
    hide VoteReport;
    hide CReport;
    if FirstStop(log, r) < |log| {
      var drop, kept := TruncationSplits(log, ci, r, newEpoch);
      hide Truncated;
      if x.seqNo > r {
        SuffixReport(drop, kept, kind, r, x);
      }
      if y.seqNo >= r {
        SuffixCheckpoints(drop, kept, r, y);
      }
    }
  }

  // ---------------------------------------------------------------- well-formed logs

  ghost predicate OnIntervals(log: Log, ci: nat)
    requires ci > 0
  {
    forall i :: 0 <= i < |log| ==>
                  && (log[i].CEntry? ==> Aligned(log[i].seqNo, ci))
                  && (log[i].NEntry? ==> log[i].seqNo >= 1 && Aligned(log[i].seqNo - 1, ci))
  }

  ghost predicate CheckpointsAscend(log: Log) {
    forall i, j :: 0 <= i < j < |log| && log[i].CEntry? && log[j].CEntry? ==> log[i].seqNo < log[j].seqNo
  }

  /** A checkpoint below an interval is taken before that interval is opened. */
  ghost predicate CheckpointsFollow(log: Log) {
    forall i, j :: 0 <= i < j < |log| && log[i].NEntry? && log[j].CEntry? ==> log[i].seqNo <= log[j].seqNo + 1
  }

  /** Votes at or below a checkpoint appear after it only if an epoch was opened in between. */
  ghost predicate Retagged(log: Log) {
    forall i, j :: 0 <= i < j < |log| && log[i].CEntry? && IsVote(log[j]) && log[j].seqNo <= log[i].seqNo ==>
                     Tag(log[i..j]).Some?
  }

  ghost predicate EpochsAscend(log: Log) {
    forall i, j :: 0 <= i < j < |log| && EpochOf(log[i]).Some? && EpochOf(log[j]).Some? ==>
                     EpochOf(log[i]).value <= EpochOf(log[j]).value
  }

  /** What the replica's appends maintain about the log above the last truncation point `floor`. */
  ghost predicate WellFormed(log: Log, ci: nat, floor: nat) {
    && ci > 0
    && OnIntervals(log, ci)
    && Covered(log, ci, floor)
    && Tagged(log)
    && CheckpointsAscend(log)
    && CheckpointsFollow(log)
    && Retagged(log)
    && EpochsAscend(log)
    && NoRepeatedQ(log, |log|)
  }

  /** An epoch change can be read from every well-formed log. */
  lemma WellFormedReadable(log: Log, newEpoch: nat)
    requires Tagged(log)
    ensures EpochChangeOf(log, newEpoch).Some?
  {
    var read := Reported(log, newEpoch);
    forall i | 0 <= i < |read| && IsVote(read[i]) ensures Tag(read[..i]).Some? {
      assert read[i] == log[i] && read[..i] == log[..i];
    }
  }

  lemma TruncateKeepsTags(log: Log, ci: nat, r: nat, k: nat, i: nat)
    requires ci > 0 && Aligned(r, ci) && Covered(log, ci, r) && Retagged(log) && k == FirstStop(log, r) < |log|
    requires i < |log[k..]| && IsVote(log[k..][i])
    ensures Tag(log[k..][..i]).Some?
    ensures Tag(log[k..][..i]) == Tag(log[..k + i])
  {
    var rest := log[k..];
    SuffixAt(log, k, i, i);
    SuffixAt(log, k, 0, i);
    assert log[..k + i] == log[..k] + rest[..i];
    TagConcat(log[..k], rest[..i]);
    if log[k].NEntry? {
      TagFound(rest[..i], 0);
    } else if rest[i].seqNo <= log[k].seqNo {
      assert Tag(log[k..k + i]).Some?;
    } else {
      KeptIsTagged(log, ci, r, k);
    }
  }

  lemma SuffixAt(log: Log, k: nat, i: nat, j: nat)
    requires k <= |log| && i <= j <= |log| - k
    ensures log[k..][i..j] == log[k + i..k + j]
    ensures j < |log| - k ==> log[k..][j] == log[k + j]
  {
  }

  lemma SuffixKeepsRetagged(log: Log, k: nat)
    requires k <= |log| && Retagged(log)
    ensures Retagged(log[k..])
  {
    var rest := log[k..];
    forall i, j | 0 <= i < j < |rest| && rest[i].CEntry? && IsVote(rest[j]) && rest[j].seqNo <= rest[i].seqNo
      ensures Tag(rest[i..j]).Some?
    {
      SuffixAt(log, k, i, j);
      assert rest[i] == log[k + i];
      assert Tag(log[k + i..k + j]).Some?;
    }
  }

  lemma TruncateKeepsTagged(log: Log, ci: nat, r: nat, k: nat)
    requires ci > 0 && Aligned(r, ci) && Covered(log, ci, r) && Retagged(log) && k == FirstStop(log, r) < |log|
    ensures Tagged(log[k..])
  {
    forall i | 0 <= i < |log[k..]| && IsVote(log[k..][i]) ensures Tag(log[k..][..i]).Some? {
      TruncateKeepsTags(log, ci, r, k, i);
    }
  }

  lemma TruncateKeepsNoRepeatedQ(log: Log, ci: nat, r: nat, k: nat)
    requires ci > 0 && Aligned(r, ci) && Covered(log, ci, r) && Retagged(log) && k == FirstStop(log, r) < |log|
    requires NoRepeatedQ(log, |log|)
    ensures NoRepeatedQ(log[k..], |log[k..]|)
  {
    var rest := log[k..];
    forall i, j | 0 <= i < j < |rest| && rest[i].QEntry? && rest[j].QEntry? && rest[i].seqNo == rest[j].seqNo
      ensures TagOr(rest[..i], 0) != TagOr(rest[..j], 0)
    {
      TruncateKeepsTags(log, ci, r, k, i);
      TruncateKeepsTags(log, ci, r, k, j);
      SuffixAt(log, k, i, i);
      SuffixAt(log, k, j, j);
      assert TagOr(log[..k + i], 0) != TagOr(log[..k + j], 0);
    }
  }

  lemma TruncateKeepsCover(log: Log, ci: nat, r: nat)
    requires ci > 0 && Aligned(r, ci) && Covered(log, ci, r) && FirstStop(log, r) < |log|
    ensures Covered(Truncated(log, r), ci, r)
  {
    var k := FirstStop(log, r);
    var rest := log[k..];
    assert Truncated(log, r) == rest;
    forall i | 0 <= i < |rest| && IsVote(rest[i]) && rest[i].seqNo > r ensures CoveredAt(rest, i, ci) {
      SuffixAt(log, k, i, i);
      var j := CoverStops(log, ci, r, k + i);
      SuffixAt(log, k, j - k, j - k);
    }
  }

  lemma SuffixKeepsOrder(log: Log, ci: nat, k: nat)
    requires ci > 0 && k <= |log| && OnIntervals(log, ci)
    requires CheckpointsAscend(log) && CheckpointsFollow(log) && EpochsAscend(log)
    ensures OnIntervals(log[k..], ci)
    ensures CheckpointsAscend(log[k..]) && CheckpointsFollow(log[k..]) && EpochsAscend(log[k..])
  {
    var rest := log[k..];
    forall i | 0 <= i < |rest| ensures rest[i] == log[k + i] {
    }
  }

  lemma KeptCheckpoints(log: Log, r: nat)
    requires CheckpointsAscend(log) && CheckpointsFollow(log) && FirstStop(log, r) < |log|
    ensures forall i :: 0 <= i < |Truncated(log, r)| && Truncated(log, r)[i].CEntry? ==> Truncated(log, r)[i].seqNo >= r
  {
    var k := FirstStop(log, r);
    var rest := log[k..];
    assert Truncated(log, r) == rest;
    forall i | 0 <= i < |rest| && rest[i].CEntry? ensures rest[i].seqNo >= r {
      assert rest[i] == log[k + i];
      assert Stops(log[k], r);
    }
  }

  /** Truncation at a checkpoint keeps a log well formed and drops every lower checkpoint. */
  lemma TruncateKeepsWellFormed(log: Log, ci: nat, floor: nat, r: nat)
    requires WellFormed(log, ci, floor) && floor <= r && Aligned(r, ci) && FirstStop(log, r) < |log|
    ensures WellFormed(Truncated(log, r), ci, r)
    ensures forall i :: 0 <= i < |Truncated(log, r)| && Truncated(log, r)[i].CEntry? ==> Truncated(log, r)[i].seqNo >= r
  {
    var k := FirstStop(log, r);
    assert Covered(log, ci, r);
    TruncateKeepsCover(log, ci, r);
    TruncateKeepsTagged(log, ci, r, k);
    TruncateKeepsNoRepeatedQ(log, ci, r, k);
    SuffixKeepsRetagged(log, k);
    SuffixKeepsOrder(log, ci, k);
    KeptCheckpoints(log, r);
  }

  /** The conditions under which the replica appends an entry. */
  ghost predicate MayAppend(log: Log, ci: nat, floor: nat, entry: Entry)
    requires ci > 0
  {
    match entry
    case CEntry(c, _) =>
      && Aligned(c, ci)
      && (forall i :: 0 <= i < |log| && log[i].CEntry? ==> log[i].seqNo < c)
      && (forall i :: 0 <= i < |log| && log[i].NEntry? ==> log[i].seqNo <= c + 1)
    case NEntry(n, config) =>
      && n >= 1 && Aligned(n - 1, ci)
      && (forall i :: 0 <= i < |log| && EpochOf(log[i]).Some? ==> EpochOf(log[i]).value <= config.number)
    case FEntry(config) =>
      forall i :: 0 <= i < |log| && EpochOf(log[i]).Some? ==> EpochOf(log[i]).value <= config.number
    case PEntry(s, _) => MayVote(log, ci, floor, s)
    case QEntry(s, _, _) =>
      && MayVote(log, ci, floor, s)
      && (forall i :: 0 <= i < |log| && log[i].QEntry? && log[i].seqNo == s ==> TagOr(log[..i], 0) != TagOr(log, 0))
    case _ => true
  }

  ghost predicate MayVote(log: Log, ci: nat, floor: nat, s: nat)
    requires ci > 0
  {
    && Tag(log).Some?
    && (s > floor ==> exists j :: 0 <= j < |log| && log[j].NEntry? && Block(log[j].seqNo, s, ci))
    && (forall i :: 0 <= i < |log| && log[i].CEntry? && log[i].seqNo >= s ==> Tag(log[i..]).Some?)
  }

  lemma AppendKeepsVotes(log: Log, ci: nat, floor: nat, entry: Entry)
    requires WellFormed(log, ci, floor) && MayAppend(log, ci, floor, entry)
    ensures Covered(log + [entry], ci, floor) && Tagged(log + [entry])
  {
    var after := log + [entry];
    forall i | 0 <= i < |after| && IsVote(after[i])
      ensures Tag(after[..i]).Some? && (after[i].seqNo > floor ==> CoveredAt(after, i, ci))
    {
      assert after[..i] == log[..i];
      if i < |log| {
        assert after[i] == log[i];
        if log[i].seqNo > floor {
          assert CoveredAt(log, i, ci);
          var j :| 0 <= j < i && log[j].NEntry? && Block(log[j].seqNo, log[i].seqNo, ci);
          assert after[j] == log[j];
        }
      } else {
        assert after[..i] == log;
        if entry.seqNo > floor {
          var j :| 0 <= j < |log| && log[j].NEntry? && Block(log[j].seqNo, entry.seqNo, ci);
          assert after[j] == log[j];
        }
      }
    }
  }

  lemma AppendKeepsRetagged(log: Log, ci: nat, floor: nat, entry: Entry)
    requires WellFormed(log, ci, floor) && MayAppend(log, ci, floor, entry)
    ensures Retagged(log + [entry])
  {
    var after := log + [entry];
    forall i, j | 0 <= i < j < |after| && after[i].CEntry? && IsVote(after[j]) && after[j].seqNo <= after[i].seqNo
      ensures Tag(after[i..j]).Some?
    {
      if j < |log| {
        assert after[i..j] == log[i..j] && after[i] == log[i] && after[j] == log[j];
      } else {
        assert after[i..j] == log[i..] && after[i] == log[i];
      }
    }
  }

  lemma AppendKeepsNoRepeatedQ(log: Log, ci: nat, floor: nat, entry: Entry)
    requires WellFormed(log, ci, floor) && MayAppend(log, ci, floor, entry)
    ensures NoRepeatedQ(log + [entry], |log| + 1)
  {
    var after := log + [entry];
    forall i, j | 0 <= i < j < |after| && after[i].QEntry? && after[j].QEntry? && after[i].seqNo == after[j].seqNo
      ensures TagOr(after[..i], 0) != TagOr(after[..j], 0)
    {
      assert after[..i] == log[..i] && after[i] == log[i];
      if j < |log| {
        assert after[..j] == log[..j] && after[j] == log[j];
      } else {
        assert after[..j] == log;
      }
    }
  }

  /** Appends made under those conditions keep the log well formed. */
  lemma AppendKeepsOrder(log: Log, ci: nat, floor: nat, entry: Entry)
    requires WellFormed(log, ci, floor) && MayAppend(log, ci, floor, entry)
    ensures OnIntervals(log + [entry], ci) && CheckpointsAscend(log + [entry]) && CheckpointsFollow(log + [entry])
    ensures EpochsAscend(log + [entry])
  {
    hide Covered;
    hide Tagged;
    hide Retagged;
    hide NoRepeatedQ;
    hide MayVote;
    hide Aligned;
    assert forall i :: 0 <= i < |log| ==> (log + [entry])[i] == log[i];
  }

  lemma AppendKeepsWellFormed(log: Log, ci: nat, floor: nat, entry: Entry)
    requires WellFormed(log, ci, floor) && MayAppend(log, ci, floor, entry)
    ensures WellFormed(log + [entry], ci, floor)
  {
    hide MayAppend;
    hide OnIntervals;
    hide CheckpointsAscend;
    hide CheckpointsFollow;
    hide EpochsAscend;
    hide Covered;
    hide Tagged;
    hide Retagged;
    hide NoRepeatedQ;
    AppendKeepsOrder(log, ci, floor, entry);
    AppendKeepsVotes(log, ci, floor, entry);
    AppendKeepsRetagged(log, ci, floor, entry);
    AppendKeepsNoRepeatedQ(log, ci, floor, entry);
  }

  // ---------------------------------------------------------------- the log in memory

  datatype LogEntry = LogEntry(index: nat, entry: Entry)

  function Contents(entries: seq<LogEntry>): (log: Log)
    ensures |log| == |entries|
  {
    seq(|entries|, i requires 0 <= i < |entries| => entries[i].entry)
  }

  lemma FirstStopUnique(log: Log, low: nat, k: nat)
    requires k <= |log| && (forall i :: 0 <= i < k ==> !Stops(log[i], low))
    requires k < |log| ==> Stops(log[k], low)
    ensures FirstStop(log, low) == k
  {
  }

  /** Log entries carry consecutive indexes that end just below the next one to be used. */
  class Persisted {
    var nextIndex: nat
    var entries: seq<LogEntry>

    ghost predicate Valid()
      reads this
    {
      forall i :: 0 <= i < |entries| ==> entries[i].index + |entries| - i == nextIndex
    }

    constructor ()
      ensures Valid() && entries == []
    {
      nextIndex, entries := 0, [];
    }

    /** Loading fails exactly when an index does not continue the log. */
    method AppendInitialLoad(index: nat, data: Entry) returns (ok: bool)
      requires Valid()
      modifies this
      ensures ok <==> old(entries) == [] || index == old(nextIndex)
      ensures ok ==> Valid() && nextIndex == index + 1 && Contents(entries) == Contents(old(entries)) + [data]
    {
      if entries == [] {
        nextIndex := index;
      }
      entries := entries + [LogEntry(index, data)];
      if nextIndex != index {
        return false;
      }
      nextIndex := index + 1;
      return true;
    }

    /** Appending needs a loaded log and returns the index to be written. */
    method AppendLogEntry(entry: Entry) returns (index: nat)
      requires Valid() && entries != []
      modifies this
      ensures Valid() && index == old(nextIndex) && nextIndex == index + 1
      ensures Contents(entries) == Contents(old(entries)) + [entry]
    {
      entries := entries + [LogEntry(nextIndex, entry)];
      index := nextIndex;
      nextIndex := nextIndex + 1;
    }

    /** Truncation moves the head to the first stop and reports its index if that moved the head. */
    method Truncate(low: nat) returns (r: Option<nat>)
      requires Valid()
      modifies this`entries
      ensures Valid() && Contents(entries) == Truncated(Contents(old(entries)), low)
      ensures r.Some? <==> entries != old(entries)
      ensures r.Some? ==> entries != [] && r.value == entries[0].index
    {
      var k := 0;
      ghost var log := Contents(entries);
      while k < |entries|
        invariant k <= |entries| && entries == old(entries)
        invariant forall i :: 0 <= i < k ==> !Stops(log[i], low)
      {
        var entry := entries[k].entry;
        assert entry == log[k];
        var stops := match entry
          case CEntry(s, _) => !(s < low)
          case NEntry(s, _) => !(s <= low)
          case _ => false;
        if stops {
          FirstStopUnique(log, low, k);
          if k == 0 {
            assert log[0..] == log;
            return None;
          }
          r := Some(entries[k].index);
          entries := entries[k..];
          assert Contents(entries) == log[k..];
          return;
        }
        k := k + 1;
      }
      FirstStopUnique(log, low, k);
      return None;
    }

    method EpochChangeFor(newEpoch: nat) returns (r: Option<EpochChange>)
      requires Valid()
      ensures r == EpochChangeOf(Contents(entries), newEpoch)
    {
      r := ConstructEpochChange(Contents(entries), newEpoch);
    }
  }
}
