/** The two-half ring of committed batches, against a plain append-only log. */
module CommitRing {
  import opened Types
  import opened Intervals

  datatype QEntry = QEntry(seqNo: nat, digest: Digest, requests: seq<RequestAck>)

  datatype Action =
    | Commit(entry: QEntry)
    | TakeCheckpoint(seqNo: nat)
    | PersistCheckpoint(seqNo: nat, value: nat)
    | SendCheckpoint(seqNo: nat, value: nat)

  // ---------------------------------------------------------------- the plain log

  /** What a plain log emits for its first `n` entries: each one in turn, and after every `ci`-th a
      checkpoint request. */
  function Trace(base: nat, ci: nat, log: seq<QEntry>, n: nat): seq<Action>
    requires ci > 0 && n <= |log|
    decreases n, 1
  {
    if n == 0 then [] else Committed(base, ci, log, n) + (if Aligned(n, ci) then [TakeCheckpoint(base + n)] else [])
  }

  /** The same up to the `n`-th commit itself. */
  function Committed(base: nat, ci: nat, log: seq<QEntry>, n: nat): seq<Action>
    requires ci > 0 && 0 < n <= |log|
    decreases n, 0
  {
    Trace(base, ci, log, n - 1) + [Commit(log[n - 1])]
  }

  predicate Numbered(base: nat, log: seq<QEntry>) {
    forall i :: 0 <= i < |log| ==> log[i].seqNo == base + 1 + i
  }

  function CommitsOf(trace: seq<Action>): seq<QEntry> {
    if trace == [] then []
    else
      var last := trace[|trace| - 1];
      CommitsOf(trace[..|trace| - 1]) + (if last.Commit? then [last.entry] else [])
  }

  function CheckpointsOf(trace: seq<Action>): seq<nat> {
    if trace == [] then []
    else
      var last := trace[|trace| - 1];
      CheckpointsOf(trace[..|trace| - 1]) + (if last.TakeCheckpoint? then [last.seqNo] else [])
  }

  lemma Snoc(trace: seq<Action>, a: Action)
    ensures CommitsOf(trace + [a]) == CommitsOf(trace) + (if a.Commit? then [a.entry] else [])
    ensures CheckpointsOf(trace + [a]) == CheckpointsOf(trace) + (if a.TakeCheckpoint? then [a.seqNo] else [])
  {
    assert (trace + [a])[..|trace|] == trace;
  }

  /** The commits of a trace are the log, in order, without gap or repeat. */
  lemma {:induction false} TraceCommits(base: nat, ci: nat, log: seq<QEntry>, n: nat)
    requires ci > 0 && n <= |log|
    ensures CommitsOf(Trace(base, ci, log, n)) == log[..n]
    ensures n > 0 ==> CommitsOf(Committed(base, ci, log, n)) == log[..n]
  {
    if n > 0 {
      TraceCommits(base, ci, log, n - 1);
      Snoc(Trace(base, ci, log, n - 1), Commit(log[n - 1]));
      Snoc(Committed(base, ci, log, n), TakeCheckpoint(base + n));
      assert Committed(base, ci, log, n) + [] == Committed(base, ci, log, n);
      assert log[..n] == log[..n - 1] + [log[n - 1]];
    }
  }

  predicate Boundary(base: nat, ci: nat, s: nat)
    requires ci > 0
  {
    s > base && Aligned(s - base, ci)
  }

  /** The checkpoint requests in a trace are those of the interval boundaries, once each. */
  ghost predicate CheckpointsExact(base: nat, ci: nat, n: nat, checkpoints: seq<nat>)
    requires ci > 0
  {
    && (forall s: nat :: s in checkpoints <==> Boundary(base, ci, s) && s <= base + n)
    && (forall j, k :: 0 <= j < k < |checkpoints| ==> checkpoints[j] < checkpoints[k])
  }

  lemma OneMoreCheckpoint(base: nat, ci: nat, n: nat, before: seq<nat>)
    requires ci > 0 && n > 0 && CheckpointsExact(base, ci, n - 1, before)
    ensures CheckpointsExact(base, ci, n, before + if Aligned(n, ci) then [base + n] else [])
  {
    hide Aligned;
    assert Boundary(base, ci, base + n) <==> Aligned(n, ci);
    hide Boundary;
    var all := before + if Aligned(n, ci) then [base + n] else [];
    assert forall k :: 0 <= k < |before| ==> before[k] in before;
    forall s: nat ensures s in all <==> Boundary(base, ci, s) && s <= base + n {
      assert s in all <==> s in before || (Aligned(n, ci) && s == base + n);
    }
  }

  lemma {:induction false} TraceCheckpoints(base: nat, ci: nat, log: seq<QEntry>, n: nat)
    requires ci > 0 && n <= |log|
    ensures CheckpointsExact(base, ci, n, CheckpointsOf(Trace(base, ci, log, n)))
    ensures n > 0 ==> CheckpointsExact(base, ci, n - 1, CheckpointsOf(Committed(base, ci, log, n)))
  {
    hide Aligned;
    if n > 0 {
      TraceCheckpoints(base, ci, log, n - 1);
      var before := CheckpointsOf(Trace(base, ci, log, n - 1));
      OneMoreCheckpoint(base, ci, n, before);
      CheckpointsOfTrace(base, ci, log, n);
      hide CheckpointsExact;
      hide CheckpointsOf;
      hide Trace;
      hide Committed;
    }
  }

  lemma CheckpointsOfTrace(base: nat, ci: nat, log: seq<QEntry>, n: nat)
    requires ci > 0 && 0 < n <= |log|
    ensures CheckpointsOf(Committed(base, ci, log, n)) == CheckpointsOf(Trace(base, ci, log, n - 1))
    ensures CheckpointsOf(Trace(base, ci, log, n)) ==
            CheckpointsOf(Trace(base, ci, log, n - 1)) + if Aligned(n, ci) then [base + n] else []
  {
    hide Aligned;
    Snoc(Trace(base, ci, log, n - 1), Commit(log[n - 1]));
    Snoc(Committed(base, ci, log, n), TakeCheckpoint(base + n));
    assert Committed(base, ci, log, n) + [] == Committed(base, ci, log, n);
  }

  /** Each checkpoint request directly follows the commit of its sequence number. */
  lemma {:induction false} CheckpointFollowsCommit(base: nat, ci: nat, log: seq<QEntry>, n: nat, i: nat)
    requires ci > 0 && n <= |log| && Numbered(base, log)
    requires i < |Trace(base, ci, log, n)| && Trace(base, ci, log, n)[i].TakeCheckpoint?
    ensures
      var trace := Trace(base, ci, log, n);
      i > 0 && trace[i - 1].Commit? && trace[i - 1].entry.seqNo == trace[i].seqNo
  {
    var trace := Trace(base, ci, log, n);
    if n > 0 {
      var before := Trace(base, ci, log, n - 1);
      if i < |before| {
        assert trace[i] == before[i];
        CheckpointFollowsCommit(base, ci, log, n - 1, i);
        assert trace[i - 1] == before[i - 1];
      }
    }
  }

  // ---------------------------------------------------------------- the ring

  /** The numbers of a commit state, with the plain log it stands for. */
  datatype Abstract = Abstract(
    base: nat,             // the checkpoint it was initialized from
    log: seq<QEntry>,      // everything committed since, in order
    low: nat,              // the last checkpoint with a result
    applied: nat,
    pending: bool,
    trace: seq<Action>)    // everything drained so far

  /** The last commit sits on a boundary whose checkpoint has not been requested yet. */
  predicate Owed(a: Abstract, ci: nat) {
    (a.applied == a.low + ci && !a.pending) || a.applied == a.low + 2 * ci
  }

  ghost predicate Consistent(a: Abstract, ci: nat) {
    && ci > 0 && Numbered(a.base, a.log)
    && a.base <= a.low <= a.applied <= a.base + |a.log| <= a.low + 2 * ci
    && Aligned(a.low - a.base, ci)
    && (a.pending ==> a.applied >= a.low + ci)
    && (!a.pending ==> a.applied <= a.low + ci)
    && a.trace == if Owed(a, ci) then Committed(a.base, ci, a.log, a.applied - a.base)
                  else Trace(a.base, ci, a.log, a.applied - a.base)
  }

  lemma {:induction false} TraceExtends(base: nat, ci: nat, log: seq<QEntry>, entry: QEntry, n: nat)
    requires ci > 0 && n <= |log|
    ensures Trace(base, ci, log + [entry], n) == Trace(base, ci, log, n)
    ensures n > 0 ==> Committed(base, ci, log + [entry], n) == Committed(base, ci, log, n)
  {
    if n > 0 {
      TraceExtends(base, ci, log, entry, n - 1);
      hide Aligned;
    }
  }

  lemma ConsistentExtends(a: Abstract, ci: nat, entry: QEntry)
    requires Consistent(a, ci) && entry.seqNo == a.base + |a.log| + 1 <= a.low + 2 * ci
    ensures Consistent(a.(log := a.log + [entry]), ci)
  {
    hide Aligned;
    TraceExtends(a.base, ci, a.log, entry, a.applied - a.base);
  }

  lemma RequestKeepsConsistent(a: Abstract, ci: nat)
    requires Consistent(a, ci) && a.applied == a.low + ci && !a.pending
    ensures Consistent(a.(pending := true, trace := a.trace + [TakeCheckpoint(a.applied)]), ci)
  {
    hide Aligned;
    AlignedSum(a.low - a.base, 0, ci);
    assert a.applied - a.base == a.low - a.base + ci;
  }

  lemma ApplyKeepsConsistent(a: Abstract, ci: nat)
    requires Consistent(a, ci) && a.applied < a.base + |a.log| && !Owed(a, ci)
    ensures Consistent(a.(applied := a.applied + 1, trace := a.trace + [Commit(a.log[a.applied - a.base])]), ci)
  {
    hide Aligned;
    var x := a.applied + 1 - a.low;
    AlignedSum(a.low - a.base, 0, ci);
    if x < ci {
      AlignedSum(a.low - a.base, x, ci);
      assert a.low - a.base + x == a.applied + 1 - a.base;
    } else if ci < x < 2 * ci {
      AlignedSum(a.low - a.base + ci, x - ci, ci);
      assert a.low - a.base + ci + (x - ci) == a.applied + 1 - a.base;
    }
    var n, all := a.applied + 1 - a.base, a.trace + [Commit(a.log[a.applied - a.base])];
    assert all == Committed(a.base, ci, a.log, n);
    assert all + [] == all;
  }

  lemma ResultKeepsConsistent(a: Abstract, ci: nat)
    requires Consistent(a, ci) && a.pending
    ensures Consistent(a.(low := a.low + ci, pending := false), ci)
  {
    hide Aligned;
    AlignedSum(a.low - a.base, 0, ci);
    assert a.low + ci - a.base == a.low - a.base + ci;
  }

  /** The trace of a plain log with results for the checkpoints up to `low`: everything, except that the
      second boundary above `low` waits for the first one's result. */
  function Refined(a: Abstract, ci: nat): seq<Action>
    requires ci > 0
  {
    if |a.log| > 0 && a.base + |a.log| == a.low + 2 * ci then Committed(a.base, ci, a.log, |a.log|)
    else Trace(a.base, ci, a.log, |a.log|)
  }

  lemma DrainedIsRefined(a: Abstract, ci: nat)
    requires Consistent(a, ci) && a.applied == a.base + |a.log| && (a.applied >= a.low + ci ==> a.pending)
    ensures a.trace == Refined(a, ci)
  {
    hide Aligned;
  }

  lemma ExactUpToBoundary(base: nat, ci: nat, hi: nat, k: nat, checkpoints: seq<nat>)
    requires ci > 0 && Aligned(hi, ci) && hi <= k < hi + ci && CheckpointsExact(base, ci, k, checkpoints)
    ensures CheckpointsExact(base, ci, hi, checkpoints)
  {
    forall s: nat | Boundary(base, ci, s) && s <= base + k ensures s <= base + hi {
      if s > base + hi {
        AlignedApart(hi, s - base, ci);
        assert false;
      }
    }
    hide Boundary;
  }

  /** The checkpoints requested so far are those with a result and, if one is pending, the next: at most
      one is outstanding. */
  lemma OneOutstanding(a: Abstract, ci: nat)
    requires Consistent(a, ci)
    ensures CheckpointsExact(a.base, ci, a.low - a.base + (if a.pending then ci else 0), CheckpointsOf(a.trace))
  {
    hide Aligned;
    hide CheckpointsExact;
    var n := a.applied - a.base;
    TraceCheckpoints(a.base, ci, a.log, n);
    AlignedSum(a.low - a.base, 0, ci);
    ExactUpToBoundary(a.base, ci, a.low - a.base + (if a.pending then ci else 0), if Owed(a, ci) then n - 1 else n,
                      CheckpointsOf(a.trace));
  }

  class CommitState {
    const ci: nat
    var lowWatermark: nat
    var stopAtSeqNo: nat
    var lastAppliedCommit: nat
    var highestCommit: nat
    var lower: array<Option<QEntry>>
    var upper: array<Option<QEntry>>
    var checkpointPending: bool
    ghost var base: nat
    ghost var log: seq<QEntry>
    ghost var trace: seq<Action>

    ghost function View(): Abstract
      reads this
    {
      Abstract(base, log, lowWatermark, lastAppliedCommit, checkpointPending, trace)
    }

    ghost predicate Halves()
      reads this`lower, this`upper
    {
      ci > 0 && lower != upper && lower.Length == ci && upper.Length == ci
    }

    function Slot(s: nat): Option<QEntry>
      reads this`lowWatermark, this`lower, this`upper, lower, upper
      requires Halves() && lowWatermark < s <= lowWatermark + 2 * ci
    {
      if s - lowWatermark > ci then upper[s - lowWatermark - 1 - ci] else lower[s - lowWatermark - 1]
    }

    /** The ring holds the part of the log above the low watermark, and nothing beyond it. */
    ghost predicate HoldsLog()
      reads this`base, this`log, this`lowWatermark, this`highestCommit, this`lower, this`upper, lower, upper
    {
      && Halves() && base <= lowWatermark && highestCommit == base + |log|
      && forall s :: lowWatermark < s <= lowWatermark + 2 * ci ==>
                       Slot(s) == if s <= highestCommit then Some(log[s - base - 1]) else None
    }

    ghost predicate Valid()
      reads this, lower, upper
    {
      && HoldsLog() && Consistent(View(), ci)
      && stopAtSeqNo == lowWatermark + 2 * ci
    }

    constructor (ci: nat, checkpoint: nat)
      requires ci > 0
      ensures Valid() && fresh(lower) && fresh(upper)
      ensures base == lowWatermark == lastAppliedCommit == highestCommit == checkpoint
      ensures log == [] && trace == [] && !checkpointPending && this.ci == ci
    {
      this.ci := ci;
      lowWatermark, lastAppliedCommit, highestCommit := checkpoint, checkpoint, checkpoint;
      stopAtSeqNo := checkpoint + 2 * ci;
      lower := new Option<QEntry>[ci](_ => None);
      upper := new Option<QEntry>[ci](_ => None);
      checkpointPending := false;
      base, log, trace := checkpoint, [], [];
    }

    /** The slot of a sequence number is filled if it is free; a filled one must have the same digest. */
    method Fill(entry: QEntry)
      requires Halves() && lowWatermark < entry.seqNo <= lowWatermark + 2 * ci
      requires Slot(entry.seqNo).Some? ==> Slot(entry.seqNo).value.digest == entry.digest
      modifies lower, upper
      ensures forall s :: lowWatermark < s <= lowWatermark + 2 * ci ==>
                            Slot(s) == if s == entry.seqNo && old(Slot(s)).None? then Some(entry) else old(Slot(s))
    {
      var isUpper := entry.seqNo - lowWatermark > ci;
      SmallModulo(entry.seqNo - (lowWatermark + 1), ci);
      var offset := (entry.seqNo - (lowWatermark + 1)) % ci;
      var commits := if isUpper then upper else lower;
      assert commits[offset] == Slot(entry.seqNo);
      if commits[offset].Some? {
        assert commits[offset].value.digest == entry.digest;
      } else {
        commits[offset] := Some(entry);
      }
    }

    /** A commit extends the log by its next entry, or repeats one that is there with the same digest,
        or is at or below the low watermark. */
    method CommitEntry(entry: QEntry)
      requires Valid() && entry.seqNo <= stopAtSeqNo && entry.seqNo <= highestCommit + 1
      requires lowWatermark < entry.seqNo <= highestCommit ==> log[entry.seqNo - base - 1].digest == entry.digest
      modifies this`highestCommit, this`log, lower, upper
      ensures Valid()
      ensures log == if entry.seqNo == old(highestCommit) + 1 then old(log) + [entry] else old(log)
    {
      if entry.seqNo <= lowWatermark {
        return;
      }
      if highestCommit < entry.seqNo {
        ConsistentExtends(View(), ci, entry);
        highestCommit := entry.seqNo;
        log := log + [entry];
      }
      assert Consistent(View(), ci);
      hide Consistent;
      Fill(entry);
      assert View() == old(View()).(log := log);
    }
  
    /** The result of the outstanding checkpoint moves the halves, and is logged before it is sent. */
    method ApplyCheckpointResult(seqNo: nat, value: nat) returns (out: seq<Action>)
      requires Valid() && checkpointPending && seqNo == lowWatermark + ci
      modifies this`lower, this`upper, this`lowWatermark, this`stopAtSeqNo, this`checkpointPending
      ensures Valid() && lower == old(upper) && fresh(upper)
      ensures lowWatermark == seqNo && !checkpointPending
      ensures out == [PersistCheckpoint(seqNo, value), SendCheckpoint(seqNo, value)]
    {
      ResultKeepsConsistent(View(), ci);
      stopAtSeqNo := seqNo + 2 * ci;
      lower := upper;
      upper := new Option<QEntry>[ci](_ => None);
      lowWatermark, checkpointPending := seqNo, false;
      hide Consistent;
      forall s | lowWatermark < s <= lowWatermark + 2 * ci
        ensures Slot(s) == if s <= highestCommit then Some(log[s - base - 1]) else None
      {
        assert s <= lowWatermark + ci ==> Slot(s) == old(Slot(s));
      }
      out := [PersistCheckpoint(seqNo, value), SendCheckpoint(seqNo, value)];
    }

    method NextCommit() returns (commit: Option<QEntry>)
      requires Valid() && lastAppliedCommit < lowWatermark + 2 * ci
      ensures commit == if lastAppliedCommit < base + |log| then Some(log[lastAppliedCommit - base]) else None
      ensures commit.Some? ==> commit.value.seqNo == lastAppliedCommit + 1
    {
      var next := lastAppliedCommit + 1;
      var isUpper := next - lowWatermark > ci;
      SmallModulo(next - (lowWatermark + 1), ci);
      var offset := (next - (lowWatermark + 1)) % ci;
      commit := if isUpper then upper[offset] else lower[offset];
      assert commit == Slot(next);
    }

    /** The checkpoint that is due, if any. */
    method RequestCheckpoint() returns (out: seq<Action>)
      requires Valid()
      modifies this`checkpointPending, this`trace
      ensures Valid() && trace == old(trace) + out
      ensures checkpointPending == (old(checkpointPending) || lastAppliedCommit == lowWatermark + ci)
    {
      hide HoldsLog;
      out := [];
      if lastAppliedCommit == lowWatermark + ci && !checkpointPending {
        RequestKeepsConsistent(View(), ci);
        hide Consistent;
        out := [TakeCheckpoint(lastAppliedCommit)];
        trace := trace + out;
        checkpointPending := true;
        assert View() == old(View()).(pending := true, trace := trace);
      }
      assert old(trace) + [] == old(trace);
    }

    method ApplyNext(commit: QEntry) returns (out: seq<Action>)
      requires Valid() && lastAppliedCommit < base + |log| && !Owed(View(), ci)
      requires commit == log[lastAppliedCommit - base]
      modifies this`lastAppliedCommit, this`trace
      ensures Valid() && trace == old(trace) + out && lastAppliedCommit == old(lastAppliedCommit) + 1
    {
      hide Consistent;
      hide Owed;
      hide HoldsLog;
      ApplyKeepsConsistent(View(), ci);
      out := [Commit(commit)];
      trace := trace + out;
      lastAppliedCommit := lastAppliedCommit + 1;
      assert View() == old(View()).(applied := lastAppliedCommit, trace := trace);
    }

    lemma HighestIsLast()
      requires Valid()
      ensures highestCommit == base + |log|
    {
    }

    /** Draining emits what the plain log has next. */
    method Drain() returns (actions: seq<Action>)
      requires Valid()
      modifies this`lastAppliedCommit, this`checkpointPending, this`trace
      ensures Valid() && trace == old(trace) + actions
      ensures lastAppliedCommit == highestCommit && (checkpointPending <==> lastAppliedCommit >= lowWatermark + ci)
      ensures trace == Refined(View(), ci)
    {
      hide HoldsLog;
      hide Consistent;
      hide Refined;
      actions := [];
      Appends(trace, [], []);
      while lastAppliedCommit < lowWatermark + 2 * ci
        invariant Valid() && trace == old(trace) + actions
        decreases lowWatermark + 2 * ci - lastAppliedCommit
      {
        InBounds(View(), ci);
        var out := RequestCheckpoint();
        Appends(old(trace), actions, out);
        actions := actions + out;
        InBounds(View(), ci);
        var commit := NextCommit();
        if commit.None? {
          break;
        }
        out := ApplyNext(commit.value);
        Appends(old(trace), actions, out);
        actions := actions + out;
      }
      InBounds(View(), ci);
      HighestIsLast();
      DrainedIsRefined(View(), ci);
    }
  }

  lemma Appends(a: seq<Action>, b: seq<Action>, c: seq<Action>)
    ensures a + (b + c) == a + b + c && a + [] == a
  {
  }

  lemma InBounds(a: Abstract, ci: nat)
    requires Consistent(a, ci)
    ensures a.applied <= a.base + |a.log| <= a.low + 2 * ci && ci > 0
    ensures (a.pending ==> a.applied >= a.low + ci) && (!a.pending ==> a.applied <= a.low + ci)
  {
    hide Aligned;
  }
}
